/**
  Single-flight cache fills (src/cache/coalesce.rs) as interleaved atomic steps.

  A thread holds one permit.  Every step below is one map operation, one atomic load or
  store, or one wake-up; between any two of them every other thread may move.  The done
  check of a waiter and its registration for the wake-up are separate steps, as they are in
  the program.
 */
module Coalesce {
  import opened Common

  /** `writer` names the thread that created the entry; `outcome` records how that thread
      ended its fill: `finish(inserted)` or, if it just dropped its permit, failure. */
  datatype Entry = Entry(key: nat, writer: nat, done: bool, success: bool, outcome: Option<bool>)

  datatype Pc =
    | Looking(key: nat)                  // begin: about to look the key up
    | Found(key: nat, e: nat)            // about to load `done` of the entry found
    | Entering(key: nat)                 // about to lock the key's slot
    | Writing(e: nat)                    // holds a writer permit
    | StoringSuccess(e: nat, inserted: bool)
    | StoringDone(e: nat, inserted: bool)
    | Aborting(e: nat)                   // drop of an unfinished writer: about to swap `done`
    | ClearingSuccess(e: nat)
    | Removing(e: nat, wakes: bool)      // about to remove its own entry
    | Notifying(e: nat)
    | Holding(e: nat)                    // holds a waiter permit
    | Checking(e: nat)                   // wait loop: about to load `done`
    | Reading(e: nat)                    // saw `done`: about to load `success`
    | Registering(e: nat)                // did not see it: about to register
    | Parked(e: nat)
    | Answered(e: nat, result: bool)
    | Gone

  datatype State = State(entries: seq<Entry>, inflight: map<nat, nat>, threads: map<nat, Pc>)

  const Start := State([], map[], map[])

  datatype Choice =
    | Begin(key: nat)
    | Go
    | Finish(inserted: bool)
    | Drop
    | Wait
    | TimeOut

  function At(s: State, t: nat, pc: Pc): State {
    s.(threads := s.threads[t := pc])
  }

  function Update(s: State, e: nat, entry: Entry): State
    requires e < |s.entries|
  {
    s.(entries := s.entries[e := entry])
  }

  /** `notify_waiters`: every thread parked on the entry runs again. */
  function Wake(threads: map<nat, Pc>, e: nat): map<nat, Pc> {
    map t | t in threads :: if threads[t] == Parked(e) then Checking(e) else threads[t]
  }

  /** `begin` with the slot of its key locked: insert, replace a leftover done entry by
      going round again, or join. */
  function Enter(s: State, t: nat, key: nat): State {
    if key !in s.inflight then
      var e := |s.entries|;
      At(s.(entries := s.entries + [Entry(key, t, false, false, None)], inflight := s.inflight[key := e]),
         t, Writing(e))
    else if s.inflight[key] < |s.entries| && s.entries[s.inflight[key]].done then
      At(s.(inflight := s.inflight - {key}), t, Looking(key))
    else At(s, t, Holding(s.inflight[key]))
  }

  /** `remove_if` with pointer equality. */
  function RemoveOwn(s: State, e: nat): State
    requires e < |s.entries|
  {
    var key := s.entries[e].key;
    if key in s.inflight && s.inflight[key] == e then s.(inflight := s.inflight - {key}) else s
  }

  /** The entry a thread's next step touches exists. */
  predicate Sane(s: State, pc: Pc) {
    pc.Looking? || pc.Entering? || pc.Gone? || pc.e < |s.entries|
  }

  /** The thread's own next atomic step. */
  function Advance(s: State, t: nat): State
    requires t in s.threads && Sane(s, s.threads[t])
  {
    match s.threads[t]
    case Looking(key) => if key in s.inflight then At(s, t, Found(key, s.inflight[key])) else At(s, t, Entering(key))
    case Found(key, e) => if s.entries[e].done then At(s, t, Entering(key)) else At(s, t, Holding(e))
    case Entering(key) => Enter(s, t, key)
    case StoringSuccess(e, inserted) =>
      At(Update(s, e, s.entries[e].(success := inserted)), t, StoringDone(e, inserted))
    case StoringDone(e, _) => At(Update(s, e, s.entries[e].(done := true)), t, Removing(e, true))
    case Aborting(e) =>
      At(Update(s, e, s.entries[e].(done := true)), t,
         if s.entries[e].done then Removing(e, false) else ClearingSuccess(e))
    case ClearingSuccess(e) => At(Update(s, e, s.entries[e].(success := false)), t, Removing(e, true))
    case Removing(e, wakes) => At(RemoveOwn(s, e), t, if wakes then Notifying(e) else Gone)
    case Notifying(e) => At(s.(threads := Wake(s.threads, e)), t, Gone)
    case Checking(e) => At(s, t, if s.entries[e].done then Reading(e) else Registering(e))
    case Reading(e) => At(s, t, Answered(e, s.entries[e].success))
    case Registering(e) => At(s, t, Parked(e))
    case _ => s
  }

  /** One step of thread `t`; a choice that does not fit where it is leaves it there. */
  function Next(s: State, t: nat, c: Choice): State {
    match c
    case Begin(key) => if t in s.threads then s else At(s, t, Looking(key))
    case Go => if t in s.threads && Sane(s, s.threads[t]) then Advance(s, t) else s
    case Finish(inserted) =>
      if t !in s.threads then s
      else if s.threads[t].Writing? && s.threads[t].e < |s.entries| then
        var e := s.threads[t].e;
        At(Update(s, e, s.entries[e].(outcome := Some(inserted))), t, StoringSuccess(e, inserted))
      else if s.threads[t].Holding? || s.threads[t].Answered? then At(s, t, Gone)
      else s
    case Drop =>
      if t !in s.threads then s
      else if s.threads[t].Writing? && s.threads[t].e < |s.entries| then
        var e := s.threads[t].e;
        At(Update(s, e, s.entries[e].(outcome := Some(false))), t, Aborting(e))
      else if s.threads[t].Holding? || s.threads[t].Answered? then At(s, t, Gone)
      else s
    case Wait => if t in s.threads && s.threads[t].Holding? then At(s, t, Checking(s.threads[t].e)) else s
    case TimeOut =>
      if t in s.threads && (s.threads[t].Registering? || s.threads[t].Parked?)
      then At(s, t, Answered(s.threads[t].e, false)) else s
  }

  datatype Move = Move(thread: nat, choice: Choice)

  function Run(s: State, moves: seq<Move>): State {
    if moves == [] then s
    else var last := |moves| - 1; Next(Run(s, moves[..last]), moves[last].thread, moves[last].choice)
  }

  // ----- the invariant ---------------------------------------------------------------------

  /** A permit that has not yet given up its slot of the map. */
  predicate IsWriter(pc: Pc) {
    pc.Writing? || pc.StoringSuccess? || pc.StoringDone? || pc.Aborting? || pc.ClearingSuccess? || pc.Removing?
  }

  predicate Owns(pc: Pc, e: nat) {
    IsWriter(pc) && pc.e == e
  }

  /** What a thread's position says about the entry it works on. */
  ghost predicate ThreadOk(s: State, t: nat) {
    t in s.threads ==>
      var pc := s.threads[t];
      && Sane(s, pc)
      && (IsWriter(pc) || pc.Notifying? ==> s.entries[pc.e].writer == t)
      && (match pc
          case Writing(e) => !s.entries[e].done && !s.entries[e].success && s.entries[e].outcome.None?
          case StoringSuccess(e, i) => !s.entries[e].done && !s.entries[e].success && s.entries[e].outcome == Some(i)
          case StoringDone(e, i) => !s.entries[e].done && s.entries[e].success == i && s.entries[e].outcome == Some(i)
          case Aborting(e) => !s.entries[e].done && !s.entries[e].success && s.entries[e].outcome == Some(false)
          case ClearingSuccess(e) => s.entries[e].done && !s.entries[e].success && s.entries[e].outcome == Some(false)
          case Removing(e, wakes) => s.entries[e].done && wakes
          case Notifying(e) => s.entries[e].done
          case Reading(e) => s.entries[e].done
          case Answered(e, result) => result ==> s.entries[e].outcome == Some(true)
          case _ => true)
  }

  /** An unfinished entry is in the map and its writer is at work on it. */
  ghost predicate EntryOk(s: State, e: nat) {
    e < |s.entries| ==>
      var entry := s.entries[e];
      && (!entry.done ==> entry.key in s.inflight && s.inflight[entry.key] == e
                          && entry.writer in s.threads && Owns(s.threads[entry.writer], e))
      && (entry.done ==> entry.outcome.Some? && (entry.success <==> entry.outcome == Some(true)))
  }

  /** The map holds only entries whose writer has yet to remove them. */
  ghost predicate KeyOk(s: State, key: nat) {
    key in s.inflight ==>
      var e := s.inflight[key];
      && e < |s.entries| && s.entries[e].key == key
      && s.entries[e].writer in s.threads && Owns(s.threads[s.entries[e].writer], e)
  }

  ghost predicate Inv(s: State) {
    && (forall t :: ThreadOk(s, t))
    && (forall e :: EntryOk(s, e))
    && (forall key :: KeyOk(s, key))
  }

  // ----- preservation ------------------------------------------------------------------------

  /** A thread moves on without touching anything shared. */
  lemma MoveKeeps(s: State, t: nat, pc: Pc)
    requires Inv(s) && (t in s.threads ==> !IsWriter(s.threads[t])) && !IsWriter(pc)
    requires ThreadOk(At(s, t, pc), t)
    ensures Inv(At(s, t, pc))
  {
    var s1 := At(s, t, pc);
    forall x ensures ThreadOk(s1, x) { assert ThreadOk(s, x); }
    forall x ensures EntryOk(s1, x) { assert EntryOk(s, x); }
    forall x ensures KeyOk(s1, x) { assert KeyOk(s, x); }
  }

  /** The writer of an entry changes it, still owning it. */
  lemma OwnerKeeps(s: State, t: nat, entry: Entry, pc: Pc)
    requires Inv(s) && t in s.threads && IsWriter(s.threads[t]) && s.threads[t].e < |s.entries|
    requires var e := s.threads[t].e;
             var was := s.entries[e];
             && Owns(pc, e)
             && entry == was.(done := entry.done, success := entry.success, outcome := entry.outcome)
             && (was.done ==> entry.done) && (was.outcome.Some? ==> entry.outcome == was.outcome)
             && ThreadOk(At(Update(s, e, entry), t, pc), t) && EntryOk(At(Update(s, e, entry), t, pc), e)
    ensures Inv(At(Update(s, s.threads[t].e, entry), t, pc))
  {
    var e := s.threads[t].e;
    var s1 := At(Update(s, e, entry), t, pc);
    assert ThreadOk(s, t);
    forall x ensures ThreadOk(s1, x) { assert ThreadOk(s, x); }
    forall x ensures EntryOk(s1, x) { assert EntryOk(s, x); }
    forall x ensures KeyOk(s1, x) { assert KeyOk(s, x); }
  }

  lemma EnterKeeps(s: State, t: nat, key: nat)
    requires Inv(s) && t in s.threads && s.threads[t] == Entering(key)
    ensures Inv(Enter(s, t, key))
  {
    var s1 := Enter(s, t, key);
    assert KeyOk(s, key);
    forall x ensures ThreadOk(s1, x) { assert ThreadOk(s, x); }
    forall x ensures EntryOk(s1, x) { assert EntryOk(s, x); }
    forall x ensures KeyOk(s1, x) { assert KeyOk(s, x); }
  }

  lemma RemoveKeeps(s: State, t: nat)
    requires Inv(s) && t in s.threads && s.threads[t].Removing? && Sane(s, s.threads[t])
    ensures Inv(Advance(s, t))
  {
    assert ThreadOk(s, t);
    var e := s.threads[t].e;
    var s1 := Advance(s, t);
    forall x ensures ThreadOk(s1, x) { assert ThreadOk(s, x); }
    forall x ensures EntryOk(s1, x) { assert EntryOk(s, x); }
    forall x ensures KeyOk(s1, x) { assert KeyOk(s, x); }
  }

  lemma NotifyKeeps(s: State, t: nat)
    requires Inv(s) && t in s.threads && s.threads[t].Notifying? && Sane(s, s.threads[t])
    ensures Inv(Advance(s, t))
  {
    assert ThreadOk(s, t);
    var s1 := Advance(s, t);
    forall x ensures ThreadOk(s1, x) { assert ThreadOk(s, x); }
    forall x ensures EntryOk(s1, x) { assert EntryOk(s, x); }
    forall x ensures KeyOk(s1, x) { assert KeyOk(s, x); }
  }

  lemma AdvanceKeeps(s: State, t: nat)
    requires Inv(s) && t in s.threads
    ensures Sane(s, s.threads[t]) && Inv(Advance(s, t))
  {
    assert ThreadOk(s, t);
    match s.threads[t]
    case Looking(key) =>
      assert KeyOk(s, key);
      MoveKeeps(s, t, if key in s.inflight then Found(key, s.inflight[key]) else Entering(key));
    case Found(key, e) => MoveKeeps(s, t, if s.entries[e].done then Entering(key) else Holding(e));
    case Entering(key) => EnterKeeps(s, t, key);
    case StoringSuccess(e, inserted) =>
      assert EntryOk(s, e);
      OwnerKeeps(s, t, s.entries[e].(success := inserted), StoringDone(e, inserted));
    case StoringDone(e, _) =>
      assert EntryOk(s, e);
      OwnerKeeps(s, t, s.entries[e].(done := true), Removing(e, true));
    case Aborting(e) =>
      assert EntryOk(s, e);
      OwnerKeeps(s, t, s.entries[e].(done := true), ClearingSuccess(e));
    case ClearingSuccess(e) =>
      assert EntryOk(s, e);
      OwnerKeeps(s, t, s.entries[e].(success := false), Removing(e, true));
    case Removing(_, _) => RemoveKeeps(s, t);
    case Notifying(_) => NotifyKeeps(s, t);
    case Checking(e) => MoveKeeps(s, t, if s.entries[e].done then Reading(e) else Registering(e));
    case Reading(e) =>
      assert EntryOk(s, e);
      MoveKeeps(s, t, Answered(e, s.entries[e].success));
    case Registering(e) => MoveKeeps(s, t, Parked(e));
    case _ =>
  }

  lemma NextKeeps(s: State, t: nat, c: Choice)
    requires Inv(s)
    ensures Inv(Next(s, t, c))
  {
    assert ThreadOk(s, t);
    if c.Begin? && t !in s.threads {
      MoveKeeps(s, t, Looking(c.key));
    } else if t in s.threads {
      match c
      case Begin(_) =>
      case Go => AdvanceKeeps(s, t);
      case Finish(inserted) =>
        if s.threads[t].Writing? {
          var e := s.threads[t].e;
          assert EntryOk(s, e);
          OwnerKeeps(s, t, s.entries[e].(outcome := Some(inserted)), StoringSuccess(e, inserted));
        } else if s.threads[t].Holding? || s.threads[t].Answered? {
          MoveKeeps(s, t, Gone);
        }
      case Drop =>
        if s.threads[t].Writing? {
          var e := s.threads[t].e;
          assert EntryOk(s, e);
          OwnerKeeps(s, t, s.entries[e].(outcome := Some(false)), Aborting(e));
        } else if s.threads[t].Holding? || s.threads[t].Answered? {
          MoveKeeps(s, t, Gone);
        }
      case Wait => if s.threads[t].Holding? { MoveKeeps(s, t, Checking(s.threads[t].e)); }
      case TimeOut =>
        if s.threads[t].Registering? || s.threads[t].Parked? {
          MoveKeeps(s, t, Answered(s.threads[t].e, false));
        }
    }
  }

  lemma {:induction false} RunKeeps(moves: seq<Move>)
    ensures Inv(Run(Start, moves))
    decreases |moves|
  {
    if moves == [] {
      forall t ensures ThreadOk(Start, t) {}
      forall e ensures EntryOk(Start, e) {}
      forall key ensures KeyOk(Start, key) {}
    } else {
      var last := |moves| - 1;
      RunKeeps(moves[..last]);
      NextKeeps(Run(Start, moves[..last]), moves[last].thread, moves[last].choice);
    }
  }

  // ----- what it is for -----------------------------------------------------------------------

  /** In every interleaving a key has at most one unfinished fill. */
  lemma OneUnfinishedWriterPerKey(moves: seq<Move>, a: nat, b: nat)
    requires var s := Run(Start, moves);
             a < |s.entries| && b < |s.entries| && s.entries[a].key == s.entries[b].key
             && !s.entries[a].done && !s.entries[b].done
    ensures a == b
  {
    RunKeeps(moves);
    assert EntryOk(Run(Start, moves), a) && EntryOk(Run(Start, moves), b);
  }

  /** A writer that has not stored `done` yet. */
  predicate Unpublished(pc: Pc) {
    pc.Writing? || pc.StoringSuccess? || pc.StoringDone? || pc.Aborting?
  }

  /** Two threads that hold writer permits and have not published their result work on
      different keys. */
  lemma WritersHaveDistinctKeys(moves: seq<Move>, t: nat, u: nat)
    requires var s := Run(Start, moves);
             && t in s.threads && u in s.threads && t != u
             && Unpublished(s.threads[t]) && Unpublished(s.threads[u])
    ensures var s := Run(Start, moves);
            && s.threads[t].e < |s.entries| && s.threads[u].e < |s.entries|
            && s.entries[s.threads[t].e].key != s.entries[s.threads[u].e].key
  {
    RunKeeps(moves);
    var s := Run(Start, moves);
    assert ThreadOk(s, t) && ThreadOk(s, u);
    assert EntryOk(s, s.threads[t].e) && EntryOk(s, s.threads[u].e);
  }

  /** A waiter is told `true` only if the very writer it waited for finished with
      `inserted = true`. */
  lemma TrueMeansInserted(moves: seq<Move>, t: nat)
    requires var s := Run(Start, moves); t in s.threads && s.threads[t].Answered? && s.threads[t].result
    ensures var s := Run(Start, moves);
            s.threads[t].e < |s.entries| && s.entries[s.threads[t].e].outcome == Some(true)
  {
    RunKeeps(moves);
    assert ThreadOk(Run(Start, moves), t);
  }

  /** Whoever removes an entry removes only its own or one that is done: an unfinished entry
      of another writer stays in the map through every step. */
  lemma NewerEntrySurvives(moves: seq<Move>, t: nat, c: Choice, e: nat)
    requires var s := Run(Start, moves);
             e < |s.entries| && !s.entries[e].done && s.entries[e].writer != t
    ensures var s := Run(Start, moves);
            var s1 := Next(s, t, c);
            && e < |s1.entries| && s1.entries[e] == s.entries[e]
            && s1.entries[e].key in s1.inflight && s1.inflight[s1.entries[e].key] == e
  {
    RunKeeps(moves);
    var s := Run(Start, moves);
    assert EntryOk(s, e) && ThreadOk(s, t);
    NextKeeps(s, t, c);
    assert EntryOk(Next(s, t, c), e);
  }

  /** When no thread is between taking a writer permit and removing its entry, the map is
      empty: aborted fills leave nothing behind. */
  lemma NoWritersNoEntries(moves: seq<Move>)
    requires forall t :: t in Run(Start, moves).threads ==> !IsWriter(Run(Start, moves).threads[t])
    ensures Run(Start, moves).inflight == map[]
  {
    RunKeeps(moves);
    var s := Run(Start, moves);
    forall key ensures key !in s.inflight { assert KeyOk(s, key); }
  }

  // ----- a wake-up that comes too early --------------------------------------------------------

  /** The writer of the entry has nothing more to do for it. */
  ghost predicate Retired(s: State, e: nat)
    requires e < |s.entries|
  {
    s.entries[e].writer in s.threads ==>
      var pc := s.threads[s.entries[e].writer]; !Owns(pc, e) && pc != Notifying(e)
  }

  /** A waiter parked on an entry whose writer has already sent its wake-up. */
  ghost predicate Stranded(s: State, u: nat, e: nat) {
    u in s.threads && s.threads[u] == Parked(e) && e < |s.entries| && s.entries[e].done && Retired(s, e)
  }

  lemma StrandedAdvance(s: State, u: nat, e: nat, t: nat)
    requires ThreadOk(s, t) && Stranded(s, u, e) && t in s.threads && t != u && Sane(s, s.threads[t])
    ensures Stranded(Advance(s, t), u, e)
  {
    match s.threads[t]
    case Looking(_) =>
    case Found(_, _) =>
    case Entering(_) =>
    case StoringSuccess(x, _) => assert x != e;
    case StoringDone(x, _) => assert x != e;
    case Aborting(x) => assert x != e;
    case ClearingSuccess(x) => assert x != e;
    case Removing(x, _) => assert x != e;
    case Notifying(x) => assert x != e;
    case Checking(_) =>
    case Reading(_) =>
    case Registering(_) =>
    case _ =>
  }

  lemma StrandedStep(s: State, u: nat, e: nat, t: nat, c: Choice)
    requires Inv(s) && Stranded(s, u, e) && !(t == u && c.TimeOut?)
    ensures Stranded(Next(s, t, c), u, e)
  {
    assert ThreadOk(s, t);
    if c.Go? && t in s.threads && t != u { StrandedAdvance(s, u, e, t); }
  }

  lemma RunSnoc(moves: seq<Move>, m: Move)
    ensures Run(Start, moves + [m]) == Next(Run(Start, moves), m.thread, m.choice)
  {
    assert (moves + [m])[..|moves + [m]| - 1] == moves;
  }

  /** Nothing but its own deadline moves a stranded waiter, whatever the other threads do. */
  lemma {:induction false} StrandedUntilTimeout(moves: seq<Move>, later: seq<Move>, u: nat, e: nat)
    requires Stranded(Run(Start, moves), u, e)
    requires Move(u, TimeOut) !in later
    ensures Stranded(Run(Start, moves + later), u, e)
    decreases |later|
  {
    if later == [] {
      assert moves + later == moves;
    } else {
      var last := |later| - 1;
      var before, m := moves + later[..last], later[last];
      StrandedUntilTimeout(moves, later[..last], u, e);
      RunKeeps(before);
      StrandedStep(Run(Start, before), u, e, m.thread, m.choice);
      RunSnoc(before, m);
      assert before + [m] == moves + later;
    }
  }

  /** The step at `i` is the wake-up of entry `e`. */
  ghost predicate WakesAt(moves: seq<Move>, i: nat, e: nat)
    requires i < |moves|
  {
    Wakes(Run(Start, moves[..i]), moves[i], e)
  }

  predicate Wakes(s: State, m: Move, e: nat) {
    m.choice.Go? && m.thread in s.threads && s.threads[m.thread] == Notifying(e)
  }

  /** The wake-up of entry `e` has been sent. */
  ghost predicate Woken(moves: seq<Move>, e: nat) {
    exists i :: 0 <= i < |moves| && WakesAt(moves, i, e)
  }

  lemma WokenSnoc(moves: seq<Move>, e: nat)
    requires moves != []
    ensures var last := |moves| - 1;
            Woken(moves, e) <==> Woken(moves[..last], e) || Wakes(Run(Start, moves[..last]), moves[last], e)
  {
    var last := |moves| - 1;
    forall i | 0 <= i < last ensures WakesAt(moves, i, e) <==> WakesAt(moves[..last], i, e) {
      assert moves[..last][..i] == moves[..i];
    }
    if Woken(moves[..last], e) {
      var i :| 0 <= i < last && WakesAt(moves[..last], i, e);
      assert WakesAt(moves, i, e);
    }
    if Wakes(Run(Start, moves[..last]), moves[last], e) { assert WakesAt(moves, last, e); }
  }

  lemma RetiredAdvance(s: State, t: nat, e: nat)
    requires Inv(s) && t in s.threads && Sane(s, s.threads[t]) && e < |s.entries|
    ensures e < |Advance(s, t).entries| && Advance(s, t).entries[e].writer == s.entries[e].writer
    ensures Retired(Advance(s, t), e) <==> Retired(s, e) || s.threads[t] == Notifying(e)
  {
    assert ThreadOk(s, t);
    if !s.threads[t].Notifying? {
      assert forall x :: x != t && x in s.threads ==> Advance(s, t).threads[x] == s.threads[x];
    }
  }

  lemma RetiredStep(s: State, m: Move, e: nat)
    requires Inv(s) && e < |s.entries|
    ensures var s1 := Next(s, m.thread, m.choice);
            e < |s1.entries| && (Retired(s1, e) <==> Retired(s, e) || Wakes(s, m, e))
  {
    assert ThreadOk(s, m.thread);
    if m.choice.Go? && m.thread in s.threads { RetiredAdvance(s, m.thread, e); }
  }

  lemma FreshIsNotRetired(s: State, m: Move, e: nat)
    requires Inv(s) && |s.entries| <= e < |Next(s, m.thread, m.choice).entries|
    ensures !Retired(Next(s, m.thread, m.choice), e)
  {
  }

  lemma {:induction false} WokenIsOld(moves: seq<Move>, e: nat)
    requires Woken(moves, e)
    ensures e < |Run(Start, moves).entries|
    decreases |moves|
  {
    var last := |moves| - 1;
    var s := Run(Start, moves[..last]);
    WokenSnoc(moves, e);
    RunKeeps(moves[..last]);
    if Woken(moves[..last], e) { WokenIsOld(moves[..last], e); } else { assert ThreadOk(s, moves[last].thread); }
    RetiredStep(s, moves[last], e);
  }

  /** In every run the writer of an entry has retired exactly if its wake-up has been sent. */
  lemma {:induction false} RetiredExactlyWhenWoken(moves: seq<Move>, e: nat)
    requires e < |Run(Start, moves).entries|
    ensures Retired(Run(Start, moves), e) <==> Woken(moves, e)
    decreases |moves|
  {
    if moves != [] {
      var last := |moves| - 1;
      var s := Run(Start, moves[..last]);
      RunKeeps(moves[..last]);
      WokenSnoc(moves, e);
      if e < |s.entries| {
        RetiredExactlyWhenWoken(moves[..last], e);
        RetiredStep(s, moves[last], e);
      } else {
        FreshIsNotRetired(s, moves[last], e);
        NotYetWoken(moves, e);
      }
    }
  }

  lemma NotYetWoken(moves: seq<Move>, e: nat)
    requires moves != [] && e >= |Run(Start, moves[..|moves| - 1]).entries|
    ensures !Woken(moves, e)
  {
    var last := |moves| - 1;
    RunKeeps(moves[..last]);
    WokenSnoc(moves, e);
    assert ThreadOk(Run(Start, moves[..last]), moves[last].thread);
    if Woken(moves[..last], e) { WokenIsOld(moves[..last], e); }
  }

  /** A waiter that registers becomes stranded exactly if the wake-up of its entry has already
      been sent. */
  lemma StrandedExactlyWhenRegisteredLate(moves: seq<Move>, u: nat, e: nat)
    requires var s := Run(Start, moves); u in s.threads && s.threads[u] == Registering(e)
    ensures Stranded(Next(Run(Start, moves), u, Go), u, e) <==> Woken(moves, e)
  {
    RunKeeps(moves);
    var s := Run(Start, moves);
    assert ThreadOk(s, u) && EntryOk(s, e);
    RetiredExactlyWhenWoken(moves, e);
    RetiredAdvance(s, u, e);
  }

  // ----- a wake-up that comes in time -------------------------------------------------------------

  /** Parked before the wake-up, or on its way from there to the writer's outcome. */
  ghost predicate InTime(s: State, u: nat, e: nat) {
    && u in s.threads && e < |s.entries|
    && match s.threads[u]
       case Parked(x) => x == e && !Retired(s, e)
       case Checking(x) => x == e && s.entries[e].done
       case Reading(x) => x == e
       case Answered(x, result) => x == e && s.entries[e].done && (result <==> s.entries[e].outcome == Some(true))
       case Gone => s.entries[e].done
       case _ => false
  }

  /** What is published stays as it is. */
  lemma PublishedStays(s: State, m: Move, e: nat)
    requires Inv(s) && e < |s.entries| && s.entries[e].done
    ensures var s1 := Next(s, m.thread, m.choice);
            e < |s1.entries| && s1.entries[e].done && s1.entries[e].outcome == s.entries[e].outcome
  {
    assert ThreadOk(s, m.thread);
  }

  lemma OthersLeave(s: State, m: Move, u: nat, e: nat)
    requires Inv(s) && u in s.threads && m.thread != u
    ensures var s1 := Next(s, m.thread, m.choice);
            && u in s1.threads
            && (s.threads[u] != Parked(e) ==> s1.threads[u] == s.threads[u] || s.threads[u].Parked?)
            && (s.threads[u] == Parked(e) ==> s1.threads[u] == if Wakes(s, m, e) then Checking(e) else Parked(e))
  {
    assert ThreadOk(s, m.thread);
  }

  lemma InTimeOthers(s: State, m: Move, u: nat, e: nat)
    requires Inv(s) && InTime(s, u, e) && m.thread != u
    ensures InTime(Next(s, m.thread, m.choice), u, e)
  {
    OthersLeave(s, m, u, e);
    RetiredStep(s, m, e);
    assert ThreadOk(s, m.thread) && ThreadOk(s, u) && EntryOk(s, e);
    if s.entries[e].done { PublishedStays(s, m, e); }
  }

  lemma InTimeOwn(s: State, c: Choice, u: nat, e: nat)
    requires Inv(s) && InTime(s, u, e) && !c.TimeOut?
    ensures InTime(Next(s, u, c), u, e)
  {
    assert ThreadOk(s, u) && EntryOk(s, e);
  }

  lemma {:induction false} InTimeStays(moves: seq<Move>, later: seq<Move>, u: nat, e: nat)
    requires InTime(Run(Start, moves), u, e) && Move(u, TimeOut) !in later
    ensures InTime(Run(Start, moves + later), u, e)
    decreases |later|
  {
    if later == [] {
      assert moves + later == moves;
    } else {
      var last := |later| - 1;
      var before, m := moves + later[..last], later[last];
      InTimeStays(moves, later[..last], u, e);
      RunKeeps(before);
      var s := Run(Start, before);
      if m.thread == u { InTimeOwn(s, m.choice, u, e); } else { InTimeOthers(s, m, u, e); }
      RunSnoc(before, m);
      assert before + [m] == moves + later;
    }
  }

  /** A waiter parked before the wake-up and not timed out is running again once the wake-up has
      been sent, and whatever it is then told is the outcome of the writer it waited for. */
  lemma RegisteredInTimeIsWoken(moves: seq<Move>, later: seq<Move>, u: nat, e: nat)
    requires var s := Run(Start, moves); u in s.threads && s.threads[u] == Parked(e)
    requires !Woken(moves, e) && Move(u, TimeOut) !in later
    ensures var s := Run(Start, moves + later);
            && u in s.threads && e < |s.entries|
            && (Woken(moves + later, e) ==> !s.threads[u].Parked?)
            && (s.threads[u].Answered? ==> (s.threads[u].result <==> s.entries[e].outcome == Some(true)))
  {
    RunKeeps(moves);
    assert ThreadOk(Run(Start, moves), u);
    RetiredExactlyWhenWoken(moves, e);
    InTimeStays(moves, later, u, e);
    RetiredExactlyWhenWoken(moves + later, e);
  }

  ghost predicate Reached(s: State) {
    exists moves: seq<Move> :: Run(Start, moves) == s
  }

  lemma Reach(s: State, t: nat, c: Choice) returns (s1: State)
    requires Reached(s)
    ensures s1 == Next(s, t, c) && Reached(s1)
  {
    s1 := Next(s, t, c);
    var moves: seq<Move> :| Run(Start, moves) == s;
    RunSnoc(moves, Move(t, c));
  }

  /** Writer `t` and waiter `u` of entry `e`, at the given positions. */
  ghost predicate Meeting(s: State, t: nat, u: nat, e: nat, writer: Pc, waiter: Pc) {
    && Reached(s) && t != u && t in s.threads && u in s.threads && s.threads[t] == writer && s.threads[u] == waiter
    && e < |s.entries| && s.entries[e].writer == t
  }

  lemma Publishes(s: State, t: nat, u: nat, e: nat) returns (k: State)
    requires Meeting(s, t, u, e, Writing(e), Registering(e))
    ensures Meeting(k, t, u, e, Removing(e, true), Registering(e)) && k.entries[e].done
  {
    var i := Reach(s, t, Finish(true));
    assert Meeting(i, t, u, e, StoringSuccess(e, true), Registering(e));
    var j := Reach(i, t, Go);
    k := Reach(j, t, Go);
  }

  lemma Retires(s: State, t: nat, u: nat, e: nat) returns (m: State)
    requires Meeting(s, t, u, e, Removing(e, true), Registering(e)) && s.entries[e].done
    ensures Meeting(m, t, u, e, Gone, Registering(e)) && m.entries[e].done
  {
    var l := Reach(s, t, Go);
    assert Meeting(l, t, u, e, Notifying(e), Registering(e));
    m := Reach(l, t, Go);
  }

  lemma WriterTakesKey() returns (c: State)
    ensures Reached(c) && c.threads == map[1 := Writing(0)] && c.inflight == map[7 := 0]
    ensures c.entries == [Entry(7, 1, false, false, None)]
  {
    assert Run(Start, []) == Start;
    var a := Reach(Start, 1, Begin(7));
    assert a == State([], map[], map[1 := Looking(7)]);
    var b := Reach(a, 1, Go);
    c := Reach(b, 1, Go);
  }

  lemma WaiterJoins() returns (f: State)
    ensures Meeting(f, 1, 2, 0, Writing(0), Holding(0)) && !f.entries[0].done
  {
    var c := WriterTakesKey();
    var d := Reach(c, 2, Begin(7));
    var e := Reach(d, 2, Go);
    assert Meeting(e, 1, 2, 0, Writing(0), Found(7, 0)) && !e.entries[0].done;
    f := Reach(e, 2, Go);
  }

  lemma WaiterChecksTooEarly() returns (h: State)
    ensures Meeting(h, 1, 2, 0, Writing(0), Registering(0))
  {
    var f := WaiterJoins();
    var g := Reach(f, 2, Wait);
    h := Reach(g, 2, Go);
  }

  /** Such runs exist: the check misses `done`, the writer finishes, then the waiter registers. */
  lemma RegisteringLateHappens()
    ensures exists moves: seq<Move> :: Stranded(Run(Start, moves), 2, 0)
  {
    var h := WaiterChecksTooEarly();
    var k := Publishes(h, 1, 2, 0);
    var m := Retires(k, 1, 2, 0);
    var n := Reach(m, 2, Go);
    assert Stranded(n, 2, 0);
    var moves: seq<Move> :| Run(Start, moves) == n;
  }

  // ----- what a permit is good for -------------------------------------------------------------------------

  /** Thread `t` makes these steps while no other moves. */
  function Alone(s: State, t: nat, choices: seq<Choice>): State
    decreases |choices|
  {
    if choices == [] then s else Alone(Next(s, t, choices[0]), t, choices[1..])
  }

  lemma AloneOne(s: State, t: nat, c: Choice, rest: seq<Choice>)
    ensures Alone(s, t, [c] + rest) == Alone(Next(s, t, c), t, rest)
  {
    assert ([c] + rest)[1..] == rest;
  }

  lemma AloneTwo(s: State, t: nat, a: Choice, b: Choice)
    ensures Alone(s, t, [a, b]) == Next(Next(s, t, a), t, b)
  {
    assert [a, b] == [a] + [b] && [b] == [b] + [];
    AloneOne(s, t, a, [b]);
    AloneOne(Next(s, t, a), t, b, []);
  }

  /** A begin on a key whose fill is under way joins that fill. */
  lemma BeginJoins(moves: seq<Move>, t: nat, key: nat, e: nat)
    requires var s := Run(Start, moves);
             && t in s.threads && s.threads[t] == Looking(key)
             && e < |s.entries| && s.entries[e].key == key && !s.entries[e].done
    ensures var s1 := Alone(Run(Start, moves), t, [Go, Go]); t in s1.threads && s1.threads[t] == Holding(e)
  {
    RunKeeps(moves);
    var s := Run(Start, moves);
    assert EntryOk(s, e);
    AloneTwo(s, t, Go, Go);
  }

  /** A begin on a key that nobody fills becomes its writer. */
  lemma BeginWrites(s: State, t: nat, key: nat)
    requires t in s.threads && s.threads[t] == Looking(key) && key !in s.inflight
    ensures var s1 := Alone(s, t, [Go, Go]);
            && t in s1.threads && s1.threads[t] == Writing(|s.entries|) && s1.inflight == s.inflight[key := |s.entries|]
            && s1.entries == s.entries + [Entry(key, t, false, false, None)]
  {
    AloneTwo(s, t, Go, Go);
  }

  /** A begin that finds a finished fill left over clears it away and becomes the writer. */
  lemma BeginReplaces(moves: seq<Move>, t: nat, key: nat)
    requires var s := Run(Start, moves);
             && t in s.threads && s.threads[t] == Looking(key)
             && key in s.inflight && s.inflight[key] < |s.entries| && s.entries[s.inflight[key]].done
    ensures var s := Run(Start, moves);
            var s1 := Alone(s, t, [Go, Go, Go] + [Go, Go]);
            t in s1.threads && s1.threads[t] == Writing(|s.entries|)
  {
    var s := Run(Start, moves);
    var a := Next(s, t, Go);
    var b := Next(a, t, Go);
    var c := Next(b, t, Go);
    assert [Go, Go, Go] + [Go, Go] == [Go] + ([Go] + ([Go] + [Go, Go]));
    AloneOne(s, t, Go, [Go] + ([Go] + [Go, Go]));
    AloneOne(a, t, Go, [Go] + [Go, Go]);
    AloneOne(b, t, Go, [Go, Go]);
    assert c.threads[t] == Looking(key) && key !in c.inflight && c.entries == s.entries;
    BeginWrites(c, t, key);
  }

  /** The fill of entry `e` is over: published with this outcome, out of the map, its waiters woken. */
  ghost predicate Over(s: State, t: nat, e: nat, inserted: bool) {
    && t in s.threads && s.threads[t] == Gone && e < |s.entries|
    && s.entries[e].done && s.entries[e].success == inserted
    && (s.entries[e].key in s.inflight ==> s.inflight[s.entries[e].key] != e)
    && forall u :: u in s.threads ==> s.threads[u] != Parked(e)
  }

  lemma RemovesAndWakes(s: State, t: nat, e: nat)
    requires t in s.threads && s.threads[t] == Removing(e, true) && e < |s.entries| && s.entries[e].done
    ensures Over(Alone(s, t, [Go, Go]), t, e, s.entries[e].success)
  {
    AloneTwo(s, t, Go, Go);
    var a := Next(s, t, Go);
    assert a.threads[t] == Notifying(e) && a.entries == s.entries;
  }

  /** A writer that finishes publishes what it was told, clears its entry and wakes its waiters. */
  lemma FinishPublishes(moves: seq<Move>, t: nat, inserted: bool)
    requires var s := Run(Start, moves); t in s.threads && s.threads[t].Writing?
    ensures var s := Run(Start, moves);
            Over(Alone(s, t, [Finish(inserted), Go, Go] + [Go, Go]), t, s.threads[t].e, inserted)
  {
    RunKeeps(moves);
    var s := Run(Start, moves);
    assert ThreadOk(s, t);
    var e := s.threads[t].e;
    var a := Next(s, t, Finish(inserted));
    var b := Next(a, t, Go);
    var c := Next(b, t, Go);
    assert [Finish(inserted), Go, Go] + [Go, Go] == [Finish(inserted)] + ([Go] + ([Go] + [Go, Go]));
    AloneOne(s, t, Finish(inserted), [Go] + ([Go] + [Go, Go]));
    AloneOne(a, t, Go, [Go] + [Go, Go]);
    AloneOne(b, t, Go, [Go, Go]);
    assert b.threads[t] == StoringDone(e, inserted);
    RemovesAndWakes(c, t, e);
  }

  /** A writer that is dropped publishes a failure, clears its entry and wakes its waiters. */
  lemma DropPublishesFailure(moves: seq<Move>, t: nat)
    requires var s := Run(Start, moves); t in s.threads && s.threads[t].Writing?
    ensures var s := Run(Start, moves); Over(Alone(s, t, [Drop, Go, Go] + [Go, Go]), t, s.threads[t].e, false)
  {
    RunKeeps(moves);
    var s := Run(Start, moves);
    assert ThreadOk(s, t);
    var e := s.threads[t].e;
    var a := Next(s, t, Drop);
    var b := Next(a, t, Go);
    var c := Next(b, t, Go);
    assert [Drop, Go, Go] + [Go, Go] == [Drop] + ([Go] + ([Go] + [Go, Go]));
    AloneOne(s, t, Drop, [Go] + ([Go] + [Go, Go]));
    AloneOne(a, t, Go, [Go] + [Go, Go]);
    AloneOne(b, t, Go, [Go, Go]);
    assert a.threads[t] == Aborting(e) && b.threads[t] == ClearingSuccess(e);
    RemovesAndWakes(c, t, e);
  }

  lemma ChecksAtOnce(s: State, u: nat, e: nat)
    requires u in s.threads && s.threads[u] == Holding(e) && e < |s.entries| && s.entries[e].done
    ensures var s1 := Alone(s, u, [Wait] + [Go, Go]);
            u in s1.threads && s1.threads[u] == Answered(e, s.entries[e].success)
  {
    AloneOne(s, u, Wait, [Go, Go]);
    var a := Next(s, u, Wait);
    AloneTwo(a, u, Go, Go);
  }

  /** A waiter that waits for a fill that is already over is told its outcome at once. */
  lemma LateWaiterIsTold(moves: seq<Move>, u: nat)
    requires var s := Run(Start, moves);
             u in s.threads && s.threads[u].Holding? && s.threads[u].e < |s.entries| && s.entries[s.threads[u].e].done
    ensures var s := Run(Start, moves);
            var e := s.threads[u].e;
            var s1 := Alone(s, u, [Wait] + [Go, Go]);
            u in s1.threads && s1.threads[u] == Answered(e, s.entries[e].outcome == Some(true))
  {
    RunKeeps(moves);
    var s := Run(Start, moves);
    assert EntryOk(s, s.threads[u].e);
    ChecksAtOnce(s, u, s.threads[u].e);
  }

  /** A waiter for a fill that is not over gives up with false at its deadline, whether or not it
      has registered by then. */
  lemma WaitingEnds(s: State, u: nat, registers: bool)
    requires u in s.threads && s.threads[u].Holding? && s.threads[u].e < |s.entries| && !s.entries[s.threads[u].e].done
    ensures var s1 := Alone(Alone(s, u, if registers then [Wait] + [Go, Go] else [Wait, Go]), u, [TimeOut]);
            u in s1.threads && s1.threads[u] == Answered(s.threads[u].e, false)
  {
    AloneOne(s, u, Wait, [Go, Go]);
    AloneTwo(s, u, Wait, Go);
    var a := Next(s, u, Wait);
    AloneTwo(a, u, Go, Go);
    var b := Alone(s, u, if registers then [Wait] + [Go, Go] else [Wait, Go]);
    assert [TimeOut] == [TimeOut] + [];
    AloneOne(b, u, TimeOut, []);
  }
}
