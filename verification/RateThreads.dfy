/**
  The token-bucket limiter (src/limits.rs) as interleaved atomic steps of any number of threads.

  A call reads the clock when it begins and may reach its bucket much later.  Finding a bucket,
  refilling it and taking a token is one step under the entry's guard.  Reserving a slot of the
  bounded map and inserting the new bucket are two steps with the key locked in between.  An
  idle scan holds the cleanup lock, evicts buckets one at a time and corrects the slot count at
  its end.
 */
module RateThreads {
  import opened Common
  import opened RateLimits

  datatype Pc =
    | Sampled(call: Call)                  // about to try the scan its tick asks for
    | Entering(call: Call, retried: bool)  // about to lock the key's entry
    | Reserved(call: Call)                 // slot counted, vacant entry locked
    | Full(call: Call, retried: bool)      // no slot left, entry released
    | Scanning(call: Call, retried: bool)  // holds the cleanup lock
    | Answered(call: Call, allowed: bool)

  datatype Scan = Scan(owner: nat, now: real, removed: nat)

  datatype System = System(core: State, locked: map<ClientKey, nat>, scan: Option<Scan>, threads: map<nat, Pc>)

  function Fresh(max: nat, now: real): System {
    System(Start(max, now), map[], None, map[])
  }

  datatype Choice = Begin(call: Call) | Go | Visit(key: ClientKey) | EndScan

  datatype Move = Move(thread: nat, choice: Choice)

  function At(s: System, t: nat, pc: Pc): System {
    s.(threads := s.threads[t := pc])
  }

  predicate CanScan(s: System, now: real) {
    s.scan.None? && Since(now, s.core.lastCleanup) >= CLEANUP_INTERVAL
  }

  function StartScan(s: System, t: nat, call: Call, retried: bool): System {
    At(s.(scan := Some(Scan(t, call.now, 0)), core := s.core.(lastCleanup := call.now)), t, Scanning(call, retried))
  }

  /** Refill the client's bucket and take a token, under its guard. */
  function TakeOne(s: System, t: nat, call: Call): System
    requires call.key in s.core.buckets
  {
    var (core, allowed) := Take(s.core, call.key, call.now, call.rate, Capacity(call.burst));
    At(s.(core := core), t, Answered(call, allowed))
  }

  function Lock(s: System, t: nat, call: Call): System {
    At(s.(core := s.core.(count := s.core.count + 1), locked := s.locked[call.key := t]), t, Reserved(call))
  }

  /** The new bucket, full, in its locked place. */
  function Placed(s: System, call: Call): System {
    s.(core := s.core.(buckets := s.core.buckets[call.key := Bucket(Capacity(call.burst), call.now)]),
       locked := s.locked - {call.key})
  }

  predicate Evicts(s: System, key: ClientKey) {
    s.scan.Some? && key !in s.locked && key in s.core.buckets && !Keep(s.core.buckets[key], s.scan.value.now)
  }

  function Evict(s: System, key: ClientKey): System
    requires Evicts(s, key)
  {
    s.(core := s.core.(buckets := s.core.buckets - {key}),
       scan := Some(s.scan.value.(removed := s.scan.value.removed + 1)))
  }

  function Settle(s: System, t: nat, call: Call, retried: bool): System {
    if s.scan.None? then s
    else At(s.(core := s.core.(count := s.core.count - s.scan.value.removed), scan := None), t, Entering(call, retried))
  }

  /** One step of thread `t`.  A step on a key that another thread has locked waits. */
  function Next(s: System, t: nat, c: Choice): System {
    if c.Begin? then
      if t in s.threads then s else At(s, t, if c.call.sampled then Sampled(c.call) else Entering(c.call, false))
    else if t !in s.threads then s
    else
      match s.threads[t]
      case Sampled(call) =>
        if !c.Go? then s
        else if CanScan(s, call.now) then StartScan(s, t, call, false)
        else At(s, t, Entering(call, false))
      case Entering(call, retried) =>
        if !c.Go? || call.key in s.locked then s
        else if call.key in s.core.buckets then TakeOne(s, t, call)
        else if s.core.count < s.core.max then Lock(s, t, call)
        else At(s, t, Full(call, retried))
      case Reserved(call) => if c.Go? then TakeOne(Placed(s, call), t, call) else s
      case Full(call, retried) =>
        if !c.Go? then s
        else if retried || !CanScan(s, call.now) then At(s, t, Answered(call, false))
        else StartScan(s, t, call, true)
      case Scanning(call, retried) =>
        if c.Visit? && Evicts(s, c.key) then Evict(s, c.key)
        else if c.EndScan? then Settle(s, t, call, retried)
        else s
      case Answered(_, _) => s
  }

  function RunAll(s: System, moves: seq<Move>): System {
    if moves == [] then s
    else var last := |moves| - 1; Next(RunAll(s, moves[..last]), moves[last].thread, moves[last].choice)
  }

  // ----- the map stays bounded ---------------------------------------------------------------------------

  ghost predicate ThreadOk(s: System, t: nat) {
    t in s.threads ==>
      match s.threads[t]
      case Reserved(call) => call.key in s.locked && s.locked[call.key] == t
      case Scanning(_, _) => s.scan.Some? && s.scan.value.owner == t
      case _ => true
  }

  ghost predicate KeyOk(s: System, key: ClientKey) {
    key in s.locked ==>
      && key !in s.core.buckets && s.locked[key] in s.threads
      && s.threads[s.locked[key]].Reserved? && s.threads[s.locked[key]].call.key == key
  }

  ghost predicate ScanOk(s: System) {
    s.scan.Some? ==> s.scan.value.owner in s.threads && s.threads[s.scan.value.owner].Scanning?
  }

  function Removed(s: System): nat {
    if s.scan.Some? then s.scan.value.removed else 0
  }

  /** Slots are held by buckets, by reservations and by evictions not yet counted. */
  ghost predicate CountOk(s: System) {
    s.core.count == |s.core.buckets.Keys| + |s.locked.Keys| + Removed(s) && s.core.count <= s.core.max
  }

  ghost predicate Inv(s: System) {
    && (forall t :: ThreadOk(s, t))
    && (forall key :: KeyOk(s, key))
    && ScanOk(s) && CountOk(s)
  }

  predicate OwnsNothing(pc: Pc) {
    !pc.Reserved? && !pc.Scanning?
  }

  lemma MoveKeeps(s: System, t: nat, pc: Pc)
    requires Inv(s) && (t in s.threads ==> OwnsNothing(s.threads[t])) && OwnsNothing(pc)
    ensures Inv(At(s, t, pc))
  {
    var s1 := At(s, t, pc);
    forall x ensures ThreadOk(s1, x) { assert ThreadOk(s, x); }
    forall key ensures KeyOk(s1, key) { assert KeyOk(s, key); }
  }

  lemma StartScanKeeps(s: System, t: nat, call: Call, retried: bool)
    requires Inv(s) && s.scan.None? && t in s.threads && OwnsNothing(s.threads[t])
    ensures Inv(StartScan(s, t, call, retried))
  {
    var s1 := StartScan(s, t, call, retried);
    forall x ensures ThreadOk(s1, x) { assert ThreadOk(s, x); }
    forall key ensures KeyOk(s1, key) { assert KeyOk(s, key); }
  }

  /** Changing the bucket of a present key frees and takes no slot. */
  lemma TakeKeeps(s: System, t: nat, call: Call)
    requires Inv(s) && t in s.threads && OwnsNothing(s.threads[t]) && call.key in s.core.buckets
    ensures Inv(TakeOne(s, t, call))
  {
    var s1 := TakeOne(s, t, call);
    assert s1.core.buckets.Keys == s.core.buckets.Keys;
    forall x ensures ThreadOk(s1, x) { assert ThreadOk(s, x); }
    forall key ensures KeyOk(s1, key) { assert KeyOk(s, key); }
  }

  lemma LockKeeps(s: System, t: nat, call: Call)
    requires Inv(s) && t in s.threads && OwnsNothing(s.threads[t]) && s.core.count < s.core.max
    requires call.key !in s.locked && call.key !in s.core.buckets
    ensures Inv(Lock(s, t, call))
  {
    var s1 := Lock(s, t, call);
    AddKey(s.locked, call.key, t);
    forall x ensures ThreadOk(s1, x) { assert ThreadOk(s, x); }
    forall key ensures KeyOk(s1, key) { assert KeyOk(s, key); }
  }

  lemma PlaceKeepsCount(s: System, t: nat, call: Call)
    requires CountOk(s) && call.key in s.locked && call.key !in s.core.buckets
    ensures CountOk(TakeOne(Placed(s, call), t, call))
  {
    AddKey(s.core.buckets, call.key, Bucket(Capacity(call.burst), call.now));
    DropKey(s.locked, call.key);
    assert TakeOne(Placed(s, call), t, call).core.buckets.Keys == s.core.buckets.Keys + {call.key};
  }

  lemma PlaceKeeps(s: System, t: nat, call: Call)
    requires Inv(s) && t in s.threads && s.threads[t] == Reserved(call)
    ensures Inv(TakeOne(Placed(s, call), t, call))
  {
    var s1 := TakeOne(Placed(s, call), t, call);
    assert ThreadOk(s, t) && KeyOk(s, call.key);
    PlaceKeepsCount(s, t, call);
    forall x ensures ThreadOk(s1, x) { assert ThreadOk(s, x); }
    forall key ensures KeyOk(s1, key) { assert KeyOk(s, key); }
  }

  lemma EvictKeeps(s: System, key: ClientKey)
    requires Inv(s) && Evicts(s, key)
    ensures Inv(Evict(s, key))
  {
    var s1 := Evict(s, key);
    DropKey(s.core.buckets, key);
    forall x ensures ThreadOk(s1, x) { assert ThreadOk(s, x); }
    forall k ensures KeyOk(s1, k) { assert KeyOk(s, k); }
  }

  lemma SettleKeeps(s: System, t: nat, call: Call, retried: bool)
    requires Inv(s) && t in s.threads && s.threads[t].Scanning?
    ensures Inv(Settle(s, t, call, retried))
  {
    var s1 := Settle(s, t, call, retried);
    assert ThreadOk(s, t);
    forall x ensures ThreadOk(s1, x) { assert ThreadOk(s, x); }
    forall key ensures KeyOk(s1, key) { assert KeyOk(s, key); }
  }

  lemma EnterKeeps(s: System, t: nat, call: Call, retried: bool)
    requires Inv(s) && t in s.threads && s.threads[t] == Entering(call, retried)
    ensures Inv(Next(s, t, Go))
  {
    if call.key !in s.locked {
      if call.key in s.core.buckets {
        TakeKeeps(s, t, call);
      } else if s.core.count < s.core.max {
        LockKeeps(s, t, call);
      } else {
        MoveKeeps(s, t, Full(call, retried));
      }
    }
  }

  lemma FullKeeps(s: System, t: nat, call: Call, retried: bool)
    requires Inv(s) && t in s.threads && s.threads[t] == Full(call, retried)
    ensures Inv(Next(s, t, Go))
  {
    if retried || !CanScan(s, call.now) {
      MoveKeeps(s, t, Answered(call, false));
    } else {
      StartScanKeeps(s, t, call, true);
    }
  }

  lemma GoKeeps(s: System, t: nat)
    requires Inv(s) && t in s.threads
    ensures Inv(Next(s, t, Go))
  {
    match s.threads[t]
    case Sampled(call) =>
      if CanScan(s, call.now) { StartScanKeeps(s, t, call, false); } else { MoveKeeps(s, t, Entering(call, false)); }
    case Entering(call, retried) => EnterKeeps(s, t, call, retried);
    case Reserved(call) => PlaceKeeps(s, t, call);
    case Full(call, retried) => FullKeeps(s, t, call, retried);
    case _ =>
  }

  lemma NextKeeps(s: System, t: nat, c: Choice)
    requires Inv(s)
    ensures Inv(Next(s, t, c))
  {
    match c
    case Begin(call) =>
      if t !in s.threads { MoveKeeps(s, t, if call.sampled then Sampled(call) else Entering(call, false)); }
    case Go => if t in s.threads { GoKeeps(s, t); }
    case Visit(key) => if Evicts(s, key) { EvictKeeps(s, key); }
    case EndScan =>
      if t in s.threads && s.threads[t].Scanning? { SettleKeeps(s, t, s.threads[t].call, s.threads[t].retried); }
  }

  lemma {:induction false} RunKeeps(max: nat, start: real, moves: seq<Move>)
    ensures Inv(RunAll(Fresh(max, start), moves))
    decreases |moves|
  {
    if moves != [] {
      var last := |moves| - 1;
      RunKeeps(max, start, moves[..last]);
      NextKeeps(RunAll(Fresh(max, start), moves[..last]), moves[last].thread, moves[last].choice);
    }
  }

  lemma {:induction false} MaxStays(s: System, moves: seq<Move>)
    ensures RunAll(s, moves).core.max == s.core.max
    decreases |moves|
  {
    if moves != [] { MaxStays(s, moves[..|moves| - 1]); }
  }

  /** In every interleaving the map holds at most `max` buckets, and when no thread is in the
      middle of a reservation or a scan the slot count is the size of the map. */
  lemma BucketsAreBounded(max: nat, start: real, moves: seq<Move>)
    ensures var s := RunAll(Fresh(max, start), moves);
            && |s.core.buckets.Keys| <= s.core.count <= max
            && ((forall t :: t in s.threads ==> OwnsNothing(s.threads[t])) ==> s.core.count == |s.core.buckets.Keys|)
  {
    var s := RunAll(Fresh(max, start), moves);
    RunKeeps(max, start, moves);
    MaxStays(Fresh(max, start), moves);
    if forall t :: t in s.threads ==> OwnsNothing(s.threads[t]) {
      forall key ensures key !in s.locked { assert KeyOk(s, key); }
      assert s.locked.Keys == {};
    }
  }

  // ----- the rate bound ------------------------------------------------------------------------------------

  /** Whether the step answers a call for `key` with yes. */
  predicate Grants(s: System, m: Move, key: ClientKey) {
    var t, s1 := m.thread, Next(s, m.thread, m.choice);
    && t in s.threads && !s.threads[t].Answered?
    && t in s1.threads && s1.threads[t].Answered? && s1.threads[t].allowed && s1.threads[t].call.key == key
  }

  /** The clock reading with which the step touches the bucket of `key`. */
  function Stamp(s: System, m: Move, key: ClientKey): Option<real> {
    if m.thread !in s.threads then None
    else
      match s.threads[m.thread]
      case Entering(call, _) =>
        if m.choice.Go? && call.key == key && key !in s.locked && key in s.core.buckets then Some(call.now) else None
      case Reserved(call) => if m.choice.Go? && call.key == key then Some(call.now) else None
      case Scanning(_, _) => if m.choice == Visit(key) && Evicts(s, key) then Some(s.scan.value.now) else None
      case _ => None
  }

  /** Grants, the last reading and the total forward movement of the readings that touched `key`. */
  datatype Tally = Tally(granted: nat, clock: real, moved: real)

  function TallyOf(s: System, moves: seq<Move>, key: ClientKey, from: real): Tally {
    if moves == [] then Tally(0, from, 0.0)
    else
      var last := |moves| - 1;
      var before, s1, m := TallyOf(s, moves[..last], key, from), RunAll(s, moves[..last]), moves[last];
      var granted := before.granted + if Grants(s1, m, key) then 1 else 0;
      match Stamp(s1, m, key)
      case None => Tally(granted, before.clock, before.moved)
      case Some(now) => Tally(granted, now, before.moved + Since(now, before.clock))
  }

  ghost predicate Agreed(c: Call, key: ClientKey, rate: real, burst: nat) {
    c.rate > 0.0 && (c.key == key ==> c.rate == rate && c.burst == burst)
  }

  ghost predicate AllAgreed(moves: seq<Move>, key: ClientKey, rate: real, burst: nat) {
    forall i :: 0 <= i < |moves| && moves[i].choice.Begin? ==> Agreed(moves[i].choice.call, key, rate, burst)
  }

  ghost predicate Sound(s: System, key: ClientKey, rate: real, burst: nat) {
    && NonNegative(s.core)
    && forall t :: t in s.threads ==> Agreed(s.threads[t].call, key, rate, burst)
  }

  lemma SameLevel(s: State, s1: State, key: ClientKey, now: real, rate: real, burst: nat, moved: real)
    requires SameBucket(s, s1, key)
    ensures Budget(s1, key, now, rate, burst, moved) == Budget(s, key, now, rate, burst, moved)
  {
  }

  lemma TakeSpendsBudget(s: State, key: ClientKey, now: real, rate: real, burst: nat, moved: real)
    requires key in s.buckets
    ensures var (s1, allowed) := Take(s, key, now, rate, Capacity(burst));
            (if allowed then 1.0 else 0.0) + Budget(s1, key, now, rate, burst, moved) == Budget(s, key, now, rate, burst, moved)
  {
    TakeSpends(s, key, now, rate, Capacity(burst));
  }

  lemma PlacedBudget(s: System, call: Call, now: real, moved: real)
    requires call.key !in s.core.buckets && now == call.now
    ensures Budget(Placed(s, call).core, call.key, now, call.rate, call.burst, moved)
            == Budget(s.core, call.key, now, call.rate, call.burst, moved)
  {
    assert Since(now, now) * call.rate == 0.0;
  }

  lemma EvictedBudget(s: System, key: ClientKey, rate: real, burst: nat, moved: real)
    requires Evicts(s, key) && NonNegative(s.core) && rate > 0.0 && Capacity(burst) <= IDLE * rate
    ensures Budget(Evict(s, key).core, key, s.scan.value.now, rate, burst, moved)
            == Budget(s.core, key, s.scan.value.now, rate, burst, moved)
  {
    Grows(rate, IDLE, Since(s.scan.value.now, s.core.buckets[key].updatedAt));
  }

  ghost predicate SameBucket(s: State, s1: State, key: ClientKey) {
    (key in s.buckets <==> key in s1.buckets) && (key in s.buckets ==> s1.buckets[key] == s.buckets[key])
  }

  lemma TakenElsewhere(s: System, t: nat, call: Call, key: ClientKey)
    requires call.key in s.core.buckets && call.key != key
    ensures SameBucket(s.core, TakeOne(s, t, call).core, key) && TakeOne(s, t, call).threads[t].call == call
  {
  }

  /** A step that does not touch the bucket of `key` grants nothing and leaves its level alone. */
  lemma UntouchedStep(s: System, m: Move, key: ClientKey)
    requires Stamp(s, m, key).None?
    ensures !Grants(s, m, key) && SameBucket(s.core, Next(s, m.thread, m.choice).core, key)
  {
    var t := m.thread;
    if t in s.threads && m.choice.Go? {
      match s.threads[t]
      case Entering(call, _) =>
        if call.key in s.core.buckets && call.key != key { TakenElsewhere(s, t, call, key); }
      case Reserved(call) => TakenElsewhere(Placed(s, call), t, call, key);
      case _ =>
    }
  }

  lemma TouchedStep(s: System, m: Move, key: ClientKey, rate: real, burst: nat, moved: real)
    requires Inv(s) && Sound(s, key, rate, burst) && Stamp(s, m, key).Some? && rate > 0.0 && Capacity(burst) <= IDLE * rate
    ensures (if Grants(s, m, key) then 1.0 else 0.0)
            + Budget(Next(s, m.thread, m.choice).core, key, Stamp(s, m, key).value, rate, burst, moved)
            == Budget(s.core, key, Stamp(s, m, key).value, rate, burst, moved)
  {
    var t := m.thread;
    var now := Stamp(s, m, key).value;
    match s.threads[t]
    case Entering(call, _) => TakeSpendsBudget(s.core, key, now, rate, burst, moved);
    case Reserved(call) =>
      assert ThreadOk(s, t) && KeyOk(s, key);
      PlacedBudget(s, call, now, moved);
      TakeSpendsBudget(Placed(s, call).core, key, now, rate, burst, moved);
    case Scanning(_, _) => EvictedBudget(s, key, rate, burst, moved);
  }

  lemma StepSound(s: System, m: Move, key: ClientKey, rate: real, burst: nat)
    requires Inv(s) && Sound(s, key, rate, burst)
    requires m.choice.Begin? ==> Agreed(m.choice.call, key, rate, burst)
    ensures Sound(Next(s, m.thread, m.choice), key, rate, burst)
  {
    var t := m.thread;
    if t in s.threads && !m.choice.Begin? {
      match s.threads[t]
      case Entering(call, _) =>
        if call.key in s.core.buckets { TakeNonNegative(s.core, call.key, call.now, call.rate, Capacity(call.burst)); }
      case Reserved(call) =>
        TakeNonNegative(Placed(s, call).core, call.key, call.now, call.rate, Capacity(call.burst));
      case _ =>
    }
  }

  /** One step spends what it grants; a reading that moves forward brings its refill. */
  lemma StepSpends(s: System, m: Move, key: ClientKey, rate: real, burst: nat, before: Tally, after: Tally)
    requires Inv(s) && Sound(s, key, rate, burst) && rate > 0.0 && Capacity(burst) <= IDLE * rate
    requires after.granted == before.granted + if Grants(s, m, key) then 1 else 0
    requires match Stamp(s, m, key)
             case None => after.clock == before.clock && after.moved == before.moved
             case Some(now) => after.clock == now && after.moved == before.moved + Since(now, before.clock)
    ensures var s1 := Next(s, m.thread, m.choice).core;
            after.granted as real + Budget(s1, key, after.clock, rate, burst, after.moved)
            <= before.granted as real + Budget(s.core, key, before.clock, rate, burst, before.moved)
  {
    var s1 := Next(s, m.thread, m.choice).core;
    if Stamp(s, m, key).None? {
      UntouchedStep(s, m, key);
      SameLevel(s.core, s1, key, before.clock, rate, burst, before.moved);
    } else {
      BudgetFalls(s.core, key, before.clock, after.clock, rate, burst, before.moved);
      TouchedStep(s, m, key, rate, burst, after.moved);
    }
  }

  lemma {:induction false} RunSpends(max: nat, start: real, moves: seq<Move>, key: ClientKey, rate: real, burst: nat, from: real)
    requires rate > 0.0 && Capacity(burst) <= IDLE * rate && AllAgreed(moves, key, rate, burst)
    ensures var s := RunAll(Fresh(max, start), moves);
            var tally := TallyOf(Fresh(max, start), moves, key, from);
            && Sound(s, key, rate, burst)
            && tally.granted as real + Budget(s.core, key, tally.clock, rate, burst, tally.moved) <= Capacity(burst)
    decreases |moves|
  {
    var s0 := Fresh(max, start);
    if moves == [] {
      BudgetAtStart(s0.core, key, from, rate, burst);
    } else {
      var last := |moves| - 1;
      RunSpends(max, start, moves[..last], key, rate, burst, from);
      RunKeeps(max, start, moves[..last]);
      var s := RunAll(s0, moves[..last]);
      StepSound(s, moves[last], key, rate, burst);
      StepSpends(s, moves[last], key, rate, burst, TallyOf(s0, moves[..last], key, from), TallyOf(s0, moves, key, from));
    }
  }

  /** In every interleaving a client gets at most its burst plus one and the refill of all
      forward movement of the readings that reached its bucket, evictions included. */
  lemma RateIsBoundedByReadings(max: nat, start: real, moves: seq<Move>, key: ClientKey, rate: real, burst: nat, from: real)
    requires rate > 0.0 && Capacity(burst) <= IDLE * rate && AllAgreed(moves, key, rate, burst)
    ensures var tally := TallyOf(Fresh(max, start), moves, key, from);
            AtMost(tally.granted, rate, burst, tally.moved)
  {
    RunSpends(max, start, moves, key, rate, burst, from);
    var tally := TallyOf(Fresh(max, start), moves, key, from);
    BudgetLeft(RunAll(Fresh(max, start), moves).core, key, tally.clock, rate, burst, tally.moved, tally.granted);
  }

  /** No reading that reaches the bucket of `key` is older than the one before it. */
  predicate InOrder(s: System, moves: seq<Move>, key: ClientKey, from: real) {
    moves == []
    || var last := |moves| - 1;
       var stamp := Stamp(RunAll(s, moves[..last]), moves[last], key);
       && InOrder(s, moves[..last], key, from)
       && (stamp.Some? ==> TallyOf(s, moves[..last], key, from).clock <= stamp.value)
  }

  lemma {:induction false} InOrderMoves(s: System, moves: seq<Move>, key: ClientKey, from: real)
    requires InOrder(s, moves, key, from)
    ensures TallyOf(s, moves, key, from).moved == TallyOf(s, moves, key, from).clock - from
    decreases |moves|
  {
    if moves != [] { InOrderMoves(s, moves[..|moves| - 1], key, from); }
  }

  /** If they reach it in order, that is the time from `from` to the last of them. */
  lemma RateIsBoundedInOrder(max: nat, start: real, moves: seq<Move>, key: ClientKey, rate: real, burst: nat, from: real)
    requires rate > 0.0 && Capacity(burst) <= IDLE * rate && AllAgreed(moves, key, rate, burst)
    requires InOrder(Fresh(max, start), moves, key, from)
    ensures var tally := TallyOf(Fresh(max, start), moves, key, from);
            AtMost(tally.granted, rate, burst, tally.clock - from)
  {
    RateIsBoundedByReadings(max, start, moves, key, rate, burst, from);
    InOrderMoves(Fresh(max, start), moves, key, from);
  }

  // ----- calls that are allowed -----------------------------------------------------------------------------

  ghost predicate Allowed(s: System, t: nat, call: Call) {
    t in s.threads && s.threads[t] == Answered(call, true)
  }

  lemma NewClientIsAllowed(s: System, t: nat, call: Call, retried: bool)
    requires t in s.threads && s.threads[t] == Entering(call, retried)
    requires call.key !in s.core.buckets && call.key !in s.locked && s.core.count < s.core.max
    ensures Allowed(Next(Next(s, t, Go), t, Go), t, call)
  {
    var a := Next(s, t, Go);
    assert a.threads[t] == Reserved(call) && a.core.buckets == s.core.buckets;
    FullBucketTakes(Placed(a, call).core, call.key, call.now, call.rate, call.burst);
  }

  lemma FullMapIsScanned(s: System, t: nat, call: Call, idle: ClientKey)
    requires t in s.threads && s.threads[t] == Full(call, false) && CanScan(s, call.now)
    requires idle in s.core.buckets && idle !in s.locked && Since(call.now, s.core.buckets[idle].updatedAt) >= 120.0
    ensures var s1 := Next(Next(Next(s, t, Go), t, Visit(idle)), t, EndScan);
            && t in s1.threads && s1.threads[t] == Entering(call, true)
            && s1.core.buckets == s.core.buckets - {idle} && s1.locked == s.locked
            && s1.core.count == s.core.count - 1 && s1.core.max == s.core.max
  {
    var a := Next(s, t, Go);
    assert a.threads[t] == Scanning(call, true) && a.core.buckets == s.core.buckets;
  }

  /** In every interleaving a new client that finds the map full, an idle bucket in it and a scan
      due is let in. */
  lemma IdleBucketGivesWay(max: nat, start: real, moves: seq<Move>, t: nat, idle: ClientKey)
    requires var s := RunAll(Fresh(max, start), moves);
             && t in s.threads && s.threads[t].Full? && !s.threads[t].retried && CanScan(s, s.threads[t].call.now)
             && s.threads[t].call.key !in s.core.buckets && s.threads[t].call.key !in s.locked
             && idle in s.core.buckets && idle !in s.locked
             && Since(s.threads[t].call.now, s.core.buckets[idle].updatedAt) >= 120.0
    ensures var s := RunAll(Fresh(max, start), moves);
            var scanned := Next(Next(Next(s, t, Go), t, Visit(idle)), t, EndScan);
            Allowed(Next(Next(scanned, t, Go), t, Go), t, s.threads[t].call)
  {
    var s := RunAll(Fresh(max, start), moves);
    RunKeeps(max, start, moves);
    FullMapIsScanned(s, t, s.threads[t].call, idle);
    NewClientIsAllowed(Next(Next(Next(s, t, Go), t, Visit(idle)), t, EndScan), t, s.threads[t].call, true);
  }
}
