/**
  The per-client active-request limiter (src/limits.rs) as interleaved atomic steps.

  Threads acquire permits, drop them and clean up the counter map.  A map guard held through
  an increment makes lookup and increment one step.  Reserving a slot of the bounded map and
  inserting the new counter are two steps with the key locked in between.  A cleanup holds
  the cleanup lock, removes idle counters one at a time and corrects the slot count at its
  end; between any two of these steps every other thread may move.
 */
module ActiveLimits {
  import opened Common

  /** A shared atomic counter; `key` names the client it was made for. */
  datatype Cell = Cell(key: ClientKey, value: int)

  datatype Pc =
    | Looking(key: ClientKey, limit: nat)                 // about to try the read lookup
    | Entering(key: ClientKey, limit: nat, retried: bool) // about to lock the key's entry
    | Reserved(key: ClientKey, limit: nat)                // slot counted, vacant entry locked
    | Full(key: ClientKey, limit: nat, retried: bool)     // no slot left, entry released
    | Scanning(key: ClientKey, limit: nat)                // holds the cleanup lock
    | Holding(key: ClientKey, limit: nat, cell: nat)      // holds a permit
    | Refused(key: ClientKey, limit: nat)
    | Gone

  datatype Scan = Scan(owner: nat, removed: nat)

  datatype State = State(
    max: nat,
    counters: map<ClientKey, nat>,
    cells: seq<Cell>,
    count: int,
    locked: map<ClientKey, nat>,
    scan: Option<Scan>,
    threads: map<nat, Pc>)

  function Start(max: nat): State {
    State(max, map[], [], 0, map[], None, map[])
  }

  datatype Choice = Begin(key: ClientKey, limit: nat) | Go | Visit(key: ClientKey) | EndScan | Drop

  function At(s: State, t: nat, pc: Pc): State {
    s.(threads := s.threads[t := pc])
  }

  /** Only thread `t` may have moved. */
  ghost predicate Moves(s: State, t: nat, r: State) {
    r.threads == s.threads || (t in r.threads && r.threads == s.threads[t := r.threads[t]])
  }

  function Add(s: State, c: nat, delta: int): (r: State)
    requires c < |s.cells|
    ensures r.threads == s.threads
  {
    s.(cells := s.cells[c := s.cells[c].(value := s.cells[c].value + delta)])
  }

  /** The conditional increment under the map guard. */
  function Increment(s: State, t: nat, key: ClientKey, limit: nat): (r: State)
    requires key in s.counters
    ensures Moves(s, t, r)
  {
    var c := s.counters[key];
    if c < |s.cells| && s.cells[c].value < limit then At(Add(s, c, 1), t, Holding(key, limit, c))
    else At(s, t, Refused(key, limit))
  }

  /** `entry(key)` and, when it is vacant, the conditional increment of the slot count. */
  function Enter(s: State, t: nat, key: ClientKey, limit: nat, retried: bool): (r: State)
    ensures Moves(s, t, r)
  {
    if key in s.counters then Increment(s, t, key, limit)
    else if s.count < s.max then
      At(s.(count := s.count + 1, locked := s.locked[key := t]), t, Reserved(key, limit))
    else At(s, t, Full(key, limit, retried))
  }

  function Insert(s: State, t: nat, key: ClientKey, limit: nat): (r: State)
    ensures Moves(s, t, r)
  {
    var c := |s.cells|;
    At(s.(counters := s.counters[key := c], cells := s.cells + [Cell(key, 1)], locked := s.locked - {key}),
       t, Holding(key, limit, c))
  }

  /** Start the one cleanup a full map allows, or give up. */
  function TryCleanup(s: State, t: nat, key: ClientKey, limit: nat, retried: bool): (r: State)
    ensures Moves(s, t, r)
  {
    if retried || s.scan.Some? then At(s, t, Refused(key, limit))
    else At(s.(scan := Some(Scan(t, 0))), t, Scanning(key, limit))
  }

  /** The cleanup looks at one key and removes its counter if that is zero. */
  function VisitKey(s: State, key: ClientKey): (r: State)
    ensures r.threads == s.threads
  {
    if s.scan.Some? && key !in s.locked && key in s.counters && s.counters[key] < |s.cells|
       && s.cells[s.counters[key]].value == 0
    then s.(counters := s.counters - {key}, scan := Some(s.scan.value.(removed := s.scan.value.removed + 1)))
    else s
  }

  /** The cleanup gives the removed slots back and releases its lock. */
  function Settle(s: State, t: nat, key: ClientKey, limit: nat): (r: State)
    ensures Moves(s, t, r)
  {
    if s.scan.Some? then
      At(s.(count := s.count - s.scan.value.removed, scan := None), t, Entering(key, limit, true))
    else s
  }

  /** One step of thread `t`.  A step on a key that another thread has locked waits. */
  function Next(s: State, t: nat, c: Choice): (r: State)
    ensures Moves(s, t, r)
  {
    if c.Begin? then if t in s.threads then s else At(s, t, Looking(c.key, c.limit))
    else if t !in s.threads then s
    else
      match s.threads[t]
      case Looking(key, limit) =>
        if !c.Go? || key in s.locked then s
        else if key in s.counters then Increment(s, t, key, limit)
        else At(s, t, Entering(key, limit, false))
      case Entering(key, limit, retried) =>
        if !c.Go? || key in s.locked then s else Enter(s, t, key, limit, retried)
      case Reserved(key, limit) => if c.Go? then Insert(s, t, key, limit) else s
      case Full(key, limit, retried) => if c.Go? then TryCleanup(s, t, key, limit, retried) else s
      case Scanning(key, limit) =>
        if c.Visit? then VisitKey(s, c.key)
        else if c.EndScan? then Settle(s, t, key, limit)
        else s
      case Holding(_, _, cell) => if c.Drop? && cell < |s.cells| then At(Add(s, cell, -1), t, Gone) else s
      case _ => s
  }

  datatype Move = Move(thread: nat, choice: Choice)

  function Run(s: State, moves: seq<Move>): State {
    if moves == [] then s
    else var last := |moves| - 1; Next(Run(s, moves[..last]), moves[last].thread, moves[last].choice)
  }

  // ----- the invariant ---------------------------------------------------------------------

  predicate Holds(s: State, t: nat, c: nat) {
    t in s.threads && s.threads[t].Holding? && s.threads[t].cell == c
  }

  /** The threads that hold a live permit on counter `c`. */
  function Holders(s: State, c: nat): set<nat> {
    set t | t in s.threads && Holds(s, t, c)
  }

  ghost predicate ThreadOk(s: State, t: nat) {
    t in s.threads ==>
      match s.threads[t]
      case Holding(key, _, c) => key in s.counters && s.counters[key] == c && c < |s.cells|
      case Reserved(key, _) => key in s.locked && s.locked[key] == t
      case Scanning(_, _) => s.scan.Some? && s.scan.value.owner == t
      case _ => true
  }

  ghost predicate CellOk(s: State, c: nat) {
    c < |s.cells| ==> s.cells[c].value == |Holders(s, c)|
  }

  ghost predicate KeyOk(s: State, key: ClientKey) {
    && (key in s.counters ==> s.counters[key] < |s.cells| && s.cells[s.counters[key]].key == key)
    && (key in s.locked ==>
          key !in s.counters && s.locked[key] in s.threads
          && s.threads[s.locked[key]].Reserved? && s.threads[s.locked[key]].key == key)
  }

  ghost predicate ScanOk(s: State) {
    s.scan.Some? ==> s.scan.value.owner in s.threads && s.threads[s.scan.value.owner].Scanning?
  }

  function Removed(s: State): nat {
    if s.scan.Some? then s.scan.value.removed else 0
  }

  ghost predicate CountOk(s: State) {
    s.count == |s.counters.Keys| + |s.locked.Keys| + Removed(s) && s.count <= s.max
  }

  ghost predicate Inv(s: State) {
    && (forall t :: ThreadOk(s, t))
    && (forall c :: CellOk(s, c))
    && (forall key :: KeyOk(s, key))
    && ScanOk(s) && CountOk(s)
  }

  // ----- preservation ------------------------------------------------------------------------

  /** Who holds a counter after thread `t` moved to `pc`. */
  lemma HoldersAfter(s: State, s1: State, t: nat, pc: Pc, c: nat)
    requires s1.threads == s.threads[t := pc]
    ensures Holders(s1, c) == if pc.Holding? && pc.cell == c then Holders(s, c) + {t} else Holders(s, c) - {t}
    ensures t in Holders(s, c) <==> Holds(s, t, c)
  {
  }

  /** A thread moves between positions that own nothing. */
  lemma MoveKeeps(s: State, t: nat, pc: Pc)
    requires Inv(s)
    requires t in s.threads ==> !s.threads[t].Holding? && !s.threads[t].Reserved? && !s.threads[t].Scanning?
    requires !pc.Holding? && !pc.Reserved? && !pc.Scanning?
    ensures Inv(At(s, t, pc))
  {
    var s1 := At(s, t, pc);
    forall x ensures ThreadOk(s1, x) { assert ThreadOk(s, x); }
    forall c ensures CellOk(s1, c) { assert CellOk(s, c); HoldersAfter(s, s1, t, s1.threads[t], c); }
    forall key ensures KeyOk(s1, key) { assert KeyOk(s, key); }
  }

  lemma IncrementKeeps(s: State, t: nat, key: ClientKey, limit: nat)
    requires Inv(s) && t in s.threads && (s.threads[t].Looking? || s.threads[t].Entering?) && key in s.counters
    ensures Inv(Increment(s, t, key, limit))
  {
    var c := s.counters[key];
    assert KeyOk(s, key);
    if s.cells[c].value < limit {
      var s1 := Increment(s, t, key, limit);
      forall x ensures ThreadOk(s1, x) { assert ThreadOk(s, x); }
      forall d ensures CellOk(s1, d) {
        assert CellOk(s, d);
        HoldersAfter(s, s1, t, s1.threads[t], d);
      }
      forall k ensures KeyOk(s1, k) { assert KeyOk(s, k); }
    } else {
      MoveKeeps(s, t, Refused(key, limit));
    }
  }

  lemma ReserveKeepsCount(s: State, s1: State, key: ClientKey, t: nat)
    requires CountOk(s) && s.count < s.max && key !in s.locked
    requires s1.counters == s.counters && s1.locked == s.locked[key := t] && s1.scan == s.scan && s1.max == s.max
             && s1.count == s.count + 1
    ensures CountOk(s1)
  {
    AddKey(s.locked, key, t);
  }

  lemma ReserveKeeps(s: State, t: nat, key: ClientKey, limit: nat, retried: bool)
    requires Inv(s) && t in s.threads && s.threads[t].Entering? && key !in s.counters && key !in s.locked
    ensures Inv(Enter(s, t, key, limit, retried))
  {
    if s.count < s.max {
      var s1 := Enter(s, t, key, limit, retried);
      forall x ensures ThreadOk(s1, x) { assert ThreadOk(s, x); }
      forall c ensures CellOk(s1, c) { assert CellOk(s, c); HoldersAfter(s, s1, t, s1.threads[t], c); }
      forall k ensures KeyOk(s1, k) { assert KeyOk(s, k); }
      ReserveKeepsCount(s, s1, key, t);
    } else {
      MoveKeeps(s, t, Full(key, limit, retried));
    }
  }

  lemma NobodyHoldsFresh(s: State)
    requires Inv(s)
    ensures Holders(s, |s.cells|) == {}
  {
    forall t ensures !Holds(s, t, |s.cells|) { assert ThreadOk(s, t); }
  }

  lemma InsertKeepsCells(s: State, t: nat, key: ClientKey, limit: nat, d: nat)
    requires Inv(s) && t in s.threads && s.threads[t] == Reserved(key, limit)
    ensures CellOk(Insert(s, t, key, limit), d)
  {
    assert CellOk(s, d);
    HoldersAfter(s, Insert(s, t, key, limit), t, Holding(key, limit, |s.cells|), d);
    NobodyHoldsFresh(s);
  }

  lemma InsertKeepsCount(s: State, t: nat, key: ClientKey, limit: nat)
    requires CountOk(s) && key in s.locked && key !in s.counters
    ensures CountOk(Insert(s, t, key, limit))
  {
    AddKey(s.counters, key, |s.cells|);
    DropKey(s.locked, key);
  }

  lemma InsertKeeps(s: State, t: nat, key: ClientKey, limit: nat)
    requires Inv(s) && t in s.threads && s.threads[t] == Reserved(key, limit)
    ensures Inv(Insert(s, t, key, limit))
  {
    var s1 := Insert(s, t, key, limit);
    assert ThreadOk(s, t) && KeyOk(s, key);
    InsertKeepsCount(s, t, key, limit);
    forall x ensures ThreadOk(s1, x) { assert ThreadOk(s, x); }
    forall d ensures CellOk(s1, d) { InsertKeepsCells(s, t, key, limit, d); }
    forall k ensures KeyOk(s1, k) { assert KeyOk(s, k); }
  }

  lemma CleanupKeeps(s: State, t: nat, key: ClientKey, limit: nat, retried: bool)
    requires Inv(s) && t in s.threads && s.threads[t].Full?
    ensures Inv(TryCleanup(s, t, key, limit, retried))
  {
    if retried || s.scan.Some? {
      MoveKeeps(s, t, Refused(key, limit));
    } else {
      var s1 := TryCleanup(s, t, key, limit, retried);
      forall x ensures ThreadOk(s1, x) { assert ThreadOk(s, x); }
      forall c ensures CellOk(s1, c) { assert CellOk(s, c); HoldersAfter(s, s1, t, s1.threads[t], c); }
      forall k ensures KeyOk(s1, k) { assert KeyOk(s, k); }
    }
  }

  lemma VisitKeeps(s: State, key: ClientKey)
    requires Inv(s)
    ensures Inv(VisitKey(s, key))
  {
    var s1 := VisitKey(s, key);
    if s1 != s {
      var c := s.counters[key];
      assert CellOk(s, c);
      forall x ensures ThreadOk(s1, x) {
        assert ThreadOk(s, x);
        assert Holds(s, x, c) ==> x in Holders(s, c);
      }
      forall d ensures CellOk(s1, d) { assert CellOk(s, d); assert Holders(s1, d) == Holders(s, d); }
      forall k ensures KeyOk(s1, k) { assert KeyOk(s, k); }
      DropKey(s.counters, key);
    }
  }

  lemma SettleKeeps(s: State, t: nat, key: ClientKey, limit: nat)
    requires Inv(s) && t in s.threads && s.threads[t].Scanning?
    ensures Inv(Settle(s, t, key, limit))
  {
    var s1 := Settle(s, t, key, limit);
    assert ThreadOk(s, t);
    forall x ensures ThreadOk(s1, x) { assert ThreadOk(s, x); }
    forall c ensures CellOk(s1, c) { assert CellOk(s, c); HoldersAfter(s, s1, t, s1.threads[t], c); }
    forall k ensures KeyOk(s1, k) { assert KeyOk(s, k); }
  }

  lemma DropKeeps(s: State, t: nat)
    requires Inv(s) && t in s.threads && s.threads[t].Holding?
    ensures Inv(Next(s, t, Drop))
  {
    var c := s.threads[t].cell;
    var s1 := Next(s, t, Drop);
    assert ThreadOk(s, t);
    forall x ensures ThreadOk(s1, x) { assert ThreadOk(s, x); }
    forall d ensures CellOk(s1, d) {
      assert CellOk(s, d);
      HoldersAfter(s, s1, t, Gone, d);
    }
    forall k ensures KeyOk(s1, k) { assert KeyOk(s, k); }
  }

  lemma NextKeeps(s: State, t: nat, c: Choice)
    requires Inv(s)
    ensures Inv(Next(s, t, c))
  {
    if c.Begin? {
      if t !in s.threads { MoveKeeps(s, t, Looking(c.key, c.limit)); }
    } else if t in s.threads && Next(s, t, c) != s {
      match s.threads[t]
      case Looking(key, limit) =>
        if key in s.counters { IncrementKeeps(s, t, key, limit); }
        else { MoveKeeps(s, t, Entering(key, limit, false)); }
      case Entering(key, limit, retried) =>
        if key in s.counters { IncrementKeeps(s, t, key, limit); }
        else { ReserveKeeps(s, t, key, limit, retried); }
      case Reserved(key, limit) => InsertKeeps(s, t, key, limit);
      case Full(key, limit, retried) => CleanupKeeps(s, t, key, limit, retried);
      case Scanning(key, limit) =>
        if c.Visit? { VisitKeeps(s, c.key); } else { SettleKeeps(s, t, key, limit); }
      case Holding(_, _, _) => DropKeeps(s, t);
      case _ =>
    }
  }

  lemma {:induction false} RunKeeps(max: nat, moves: seq<Move>)
    ensures Inv(Run(Start(max), moves))
    decreases |moves|
  {
    var s := Start(max);
    if moves == [] {
      forall t ensures ThreadOk(s, t) {}
      forall c ensures CellOk(s, c) {}
      forall key ensures KeyOk(s, key) {}
    } else {
      var last := |moves| - 1;
      RunKeeps(max, moves[..last]);
      NextKeeps(Run(s, moves[..last]), moves[last].thread, moves[last].choice);
    }
  }

  // ----- what it is for -----------------------------------------------------------------------

  /** The live permits of a client. */
  function Live(s: State, key: ClientKey): set<nat> {
    set t | t in s.threads && s.threads[t].Holding? && s.threads[t].key == key
  }

  /** All live permits of a client share the one counter the map has for it. */
  lemma LiveAreHolders(s: State, key: ClientKey)
    requires Inv(s)
    ensures key in s.counters ==>
              s.counters[key] < |s.cells| && Live(s, key) == Holders(s, s.counters[key])
              && s.cells[s.counters[key]].value == |Live(s, key)|
    ensures key !in s.counters ==> Live(s, key) == {}
  {
    assert KeyOk(s, key);
    if key in s.counters {
      var c := s.counters[key];
      forall t ensures t in Live(s, key) <==> t in Holders(s, c) {
        assert ThreadOk(s, t);
        if t in Holders(s, c) { assert KeyOk(s, s.threads[t].key); }
      }
      assert CellOk(s, c);
    } else {
      forall t ensures t !in Live(s, key) { assert ThreadOk(s, t); }
    }
  }

  /** In every interleaving each counter in the map equals the client's live permits and a
      client without a counter has none. */
  lemma CountersCountPermits(max: nat, moves: seq<Move>, key: ClientKey)
    ensures var s := Run(Start(max), moves);
            && (key in s.counters ==> s.counters[key] < |s.cells|
                                      && s.cells[s.counters[key]].value == |Live(s, key)|)
            && (Live(s, key) != {} ==> key in s.counters)
  {
    RunKeeps(max, moves);
    LiveAreHolders(Run(Start(max), moves), key);
  }

  /** The map is bounded in every interleaving, and the slot count is exact whenever nobody is
      between reserving and inserting or inside a cleanup. */
  lemma MapIsBounded(max: nat, moves: seq<Move>)
    ensures var s := Run(Start(max), moves);
            && |s.counters.Keys| <= s.count <= s.max
            && ((forall t :: t in s.threads ==> !s.threads[t].Reserved? && !s.threads[t].Scanning?) ==>
                  s.count == |s.counters.Keys|)
  {
    RunKeeps(max, moves);
    var s := Run(Start(max), moves);
    if forall t :: t in s.threads ==> !s.threads[t].Reserved? && !s.threads[t].Scanning? {
      forall key ensures key !in s.locked { assert KeyOk(s, key); }
      assert s.locked.Keys == {};
    }
  }

  lemma LiveAfter(s: State, s1: State, t: nat, key: ClientKey)
    requires t in s1.threads && s1.threads == s.threads[t := s1.threads[t]]
    ensures Live(s1, key) == if s1.threads[t].Holding? && s1.threads[t].key == key
                             then Live(s, key) + {t} else Live(s, key) - {t}
  {
  }

  ghost predicate Grants(s: State, t: nat, c: Choice) {
    var s1 := Next(s, t, c);
    t in s1.threads && s1.threads[t].Holding? && !(t in s.threads && s.threads[t].Holding?)
  }

  /** A grant either found the client's counter below the limit or made its first one. */
  lemma GrantCases(s: State, t: nat, c: Choice)
    requires Inv(s) && Grants(s, t, c)
    ensures t in s.threads && !s.threads[t].Refused? && !s.threads[t].Gone?
    ensures var key := s.threads[t].key;
            && Next(s, t, c).threads[t].key == key && Next(s, t, c).threads[t].limit == s.threads[t].limit
            && Live(Next(s, t, c), key) == Live(s, key) + {t} && t !in Live(s, key)
            && (|Live(s, key)| < s.threads[t].limit || Live(s, key) == {})
  {
    assert ThreadOk(s, t);
    var key := s.threads[t].key;
    assert KeyOk(s, key);
    LiveAreHolders(s, key);
    LiveAfter(s, Next(s, t, c), t, key);
  }

  /** Every grant leaves the client within the limit of that call exactly when the limit is at
      least one: the vacant path hands out a first permit without comparing. */
  lemma GrantIsWithinLimit(max: nat, moves: seq<Move>, t: nat, c: Choice)
    requires Grants(Run(Start(max), moves), t, c)
    ensures var s1 := Next(Run(Start(max), moves), t, c);
            |Live(s1, s1.threads[t].key)| <= s1.threads[t].limit <==> s1.threads[t].limit >= 1
  {
    RunKeeps(max, moves);
    GrantCases(Run(Start(max), moves), t, c);
  }

  /** A refusal on the counter paths happens only with the client at its limit; a refusal for
      want of a slot starts from a full map. */
  lemma RefusalHasACause(max: nat, moves: seq<Move>, t: nat)
    requires var s := Run(Start(max), moves); t in s.threads && (s.threads[t].Looking? || s.threads[t].Entering?)
    ensures var s := Run(Start(max), moves);
            var s1 := Next(s, t, Go);
            && t in s1.threads
            && (s1.threads[t].Refused? ==> |Live(s, s.threads[t].key)| >= s.threads[t].limit)
            && (s1.threads[t].Full? ==> s.count == s.max && Live(s, s.threads[t].key) == {})
  {
    RunKeeps(max, moves);
    var s := Run(Start(max), moves);
    LiveAreHolders(s, s.threads[t].key);
  }

  // ----- one limit for all calls of a client ------------------------------------------------------

  /** The thread asks for nothing above `limit` when it works on `key`. */
  predicate Asks(pc: Pc, key: ClientKey, limit: nat) {
    (pc.Looking? || pc.Entering? || pc.Reserved? || pc.Full? || pc.Scanning?) && pc.key == key ==> pc.limit <= limit
  }

  ghost predicate AskOk(s: State, t: nat, key: ClientKey, limit: nat) {
    t in s.threads ==> Asks(s.threads[t], key, limit)
  }

  ghost predicate Within(s: State, key: ClientKey, limit: nat) {
    (forall t :: AskOk(s, t, key, limit)) && |Live(s, key)| <= limit
  }

  lemma StepAsks(s: State, t: nat, c: Choice, key: ClientKey, limit: nat)
    requires c.Begin? && c.key == key ==> c.limit <= limit
    requires AskOk(s, t, key, limit)
    ensures AskOk(Next(s, t, c), t, key, limit)
  {
    if t in s.threads && !c.Begin? {
      match s.threads[t]
      case Looking(_, _) =>
      case Entering(_, _, _) =>
      case Reserved(_, _) =>
      case Full(_, _, _) =>
      case Scanning(_, _) =>
      case _ =>
    }
  }

  lemma StepAllAsk(s: State, t: nat, c: Choice, key: ClientKey, limit: nat)
    requires c.Begin? && c.key == key ==> c.limit <= limit
    requires forall x :: AskOk(s, x, key, limit)
    ensures forall x :: AskOk(Next(s, t, c), x, key, limit)
  {
    StepAsks(s, t, c, key, limit);
    forall x ensures AskOk(Next(s, t, c), x, key, limit) { assert AskOk(s, x, key, limit); }
  }

  lemma StepLive(s: State, t: nat, c: Choice, key: ClientKey, limit: nat)
    requires Inv(s) && limit >= 1 && AskOk(s, t, key, limit) && |Live(s, key)| <= limit
    ensures |Live(Next(s, t, c), key)| <= limit
  {
    var s1 := Next(s, t, c);
    if s1.threads != s.threads {
      LiveAfter(s, s1, t, key);
      if Grants(s, t, c) {
        GrantCases(s, t, c);
      } else {
        if t in s.threads && s.threads[t].Holding? { HoldingStays(s, t, c); }
        Smaller(Live(s1, key), Live(s, key));
      }
    }
  }

  lemma StepWithin(s: State, t: nat, c: Choice, key: ClientKey, limit: nat)
    requires Inv(s) && Within(s, key, limit) && limit >= 1
    requires c.Begin? && c.key == key ==> c.limit <= limit
    ensures Within(Next(s, t, c), key, limit)
  {
    StepAllAsk(s, t, c, key, limit);
    assert AskOk(s, t, key, limit);
    StepLive(s, t, c, key, limit);
  }

  lemma HoldingStays(s: State, t: nat, c: Choice)
    requires t in s.threads && s.threads[t].Holding?
    ensures t in Next(s, t, c).threads && Next(s, t, c).threads[t] in {s.threads[t], Gone}
  {
  }

  /** If no call for a client ever asks for more than `limit`, the client never has more live
      permits than that, in any interleaving with drops and cleanups. */
  lemma {:induction false} NeverAboveLimit(max: nat, moves: seq<Move>, key: ClientKey, limit: nat)
    requires limit >= 1
    requires forall i :: 0 <= i < |moves| && moves[i].choice.Begin? && moves[i].choice.key == key ==>
                           moves[i].choice.limit <= limit
    ensures Within(Run(Start(max), moves), key, limit)
    decreases |moves|
  {
    if moves == [] {
      assert Live(Start(max), key) == {};
    } else {
      var last := |moves| - 1;
      NeverAboveLimit(max, moves[..last], key, limit);
      RunKeeps(max, moves[..last]);
      StepWithin(Run(Start(max), moves[..last]), moves[last].thread, moves[last].choice, key, limit);
    }
  }

  /** A call with limit zero for a new client is granted. */
  lemma ZeroLimitIsGranted(key: ClientKey)
    ensures exists moves: seq<Move> :: Grants(Run(Start(1), moves), 0, Go) && Run(Start(1), moves).threads[0].limit == 0
  {
    var a := [Move(0, Begin(key, 0))];
    var b := a + [Move(0, Go)];
    var c := b + [Move(0, Go)];
    assert a[..0] == [] && b[..1] == a && c[..2] == b;
    assert Run(Start(1), a) == At(Start(1), 0, Looking(key, 0));
    assert Run(Start(1), b) == At(Run(Start(1), a), 0, Entering(key, 0, false));
    assert Run(Start(1), c).threads[0] == Reserved(key, 0);
    assert Grants(Run(Start(1), c), 0, Go);
  }

  // ----- permits that are given --------------------------------------------------------------------

  /** Thread `t` makes these steps while no other moves. */
  function Alone(s: State, t: nat, choices: seq<Choice>): State
    decreases |choices|
  {
    if choices == [] then s else Alone(Next(s, t, choices[0]), t, choices[1..])
  }

  ghost predicate Granted(s: State, t: nat, key: ClientKey) {
    t in s.threads && s.threads[t].Holding? && s.threads[t].key == key
  }

  /** A client with a counter and fewer live permits than its limit gets one at once. */
  lemma BelowLimitIsGranted(max: nat, moves: seq<Move>, t: nat)
    requires var s := Run(Start(max), moves);
             && t in s.threads && s.threads[t].Looking? && s.threads[t].key in s.counters && s.threads[t].key !in s.locked
             && |Live(s, s.threads[t].key)| < s.threads[t].limit
    ensures var s := Run(Start(max), moves); Granted(Next(s, t, Go), t, s.threads[t].key)
  {
    RunKeeps(max, moves);
    LiveAreHolders(Run(Start(max), moves), Run(Start(max), moves).threads[t].key);
  }

  lemma NewClientEnters(s: State, t: nat, key: ClientKey, limit: nat, retried: bool)
    requires t in s.threads && s.threads[t] == Entering(key, limit, retried)
    requires key !in s.counters && key !in s.locked && s.count < s.max
    ensures Granted(Alone(s, t, [Go, Go]), t, key)
  {
    assert [Go, Go][1..] == [Go] && [Go][1..] == [];
    assert Next(s, t, Go).threads[t] == Reserved(key, limit);
  }

  lemma FullMapIsCleaned(s: State, t: nat, key: ClientKey, limit: nat, idle: ClientKey)
    requires t in s.threads && s.threads[t] == Full(key, limit, false) && s.scan.None?
    requires idle in s.counters && idle !in s.locked && s.counters[idle] < |s.cells| && s.cells[s.counters[idle]].value == 0
    ensures var s1 := Alone(s, t, [Go, Visit(idle), EndScan]);
            && t in s1.threads && s1.threads[t] == Entering(key, limit, true)
            && s1.counters == s.counters - {idle} && s1.locked == s.locked && s1.count == s.count - 1 && s1.max == s.max
  {
    var all := [Go, Visit(idle), EndScan];
    assert all[1..] == [Visit(idle), EndScan] && all[1..][1..] == [EndScan] && all[1..][1..][1..] == [];
    var a := Next(s, t, Go);
    assert a.threads[t] == Scanning(key, limit) && a.counters == s.counters;
    var b := Next(a, t, Visit(idle));
    var c := Next(b, t, EndScan);
    assert Alone(b, t, [EndScan]) == Alone(c, t, []) == c;
    assert Alone(a, t, [Visit(idle), EndScan]) == c;
  }

  lemma AloneConcat(s: State, t: nat, a: seq<Choice>, b: seq<Choice>)
    ensures Alone(s, t, a + b) == Alone(Alone(s, t, a), t, b)
    decreases |a|
  {
    if a == [] {
      assert a + b == b;
    } else {
      assert (a + b)[0] == a[0] && (a + b)[1..] == a[1..] + b;
      AloneConcat(Next(s, t, a[0]), t, a[1..], b);
    }
  }

  /** A full map that holds an idle counter does not keep a new client out: the cleanup frees the
      slot and the client gets its permit. */
  lemma IdleCounterMakesRoom(max: nat, moves: seq<Move>, t: nat, idle: ClientKey)
    requires var s := Run(Start(max), moves);
             && t in s.threads && s.threads[t].Full? && !s.threads[t].retried && s.scan.None?
             && s.threads[t].key !in s.counters && s.threads[t].key !in s.locked
             && idle in s.counters && idle !in s.locked && Live(s, idle) == {}
    ensures var s := Run(Start(max), moves);
            Granted(Alone(s, t, [Go, Visit(idle), EndScan, Go, Go]), t, s.threads[t].key)
  {
    var s := Run(Start(max), moves);
    RunKeeps(max, moves);
    LiveAreHolders(s, idle);
    var key, limit := s.threads[t].key, s.threads[t].limit;
    FullMapIsCleaned(s, t, key, limit, idle);
    AloneConcat(s, t, [Go, Visit(idle), EndScan], [Go, Go]);
    assert [Go, Visit(idle), EndScan] + [Go, Go] == [Go, Visit(idle), EndScan, Go, Go];
    NewClientEnters(Alone(s, t, [Go, Visit(idle), EndScan]), t, key, limit, true);
  }
}
