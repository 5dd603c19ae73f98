/**
  The per-client token-bucket limiter (src/limits.rs).

  Instants and tokens are real numbers.  `sampled` says whether the worker's tick counter
  picked this call for an idle scan; it is an input.
 */
module RateLimits {
  import opened Common

  datatype Bucket = Bucket(tokens: real, updatedAt: real)

  datatype State = State(max: nat, buckets: map<ClientKey, Bucket>, count: int, lastCleanup: real)

  const IDLE := 120.0
  const CLEANUP_INTERVAL := 1.0

  /** Saturating difference of two instants. */
  function Since(now: real, earlier: real): real {
    if now <= earlier then 0.0 else now - earlier
  }

  function LeastOf(a: real, b: real): real {
    if a <= b then a else b
  }

  predicate Keep(b: Bucket, now: real) {
    Since(now, b.updatedAt) < IDLE
  }

  function Kept(buckets: map<ClientKey, Bucket>, now: real): map<ClientKey, Bucket> {
    map k | k in buckets && Keep(buckets[k], now) :: buckets[k]
  }

  /** One idle scan, unless the last one was less than the interval ago. */
  function Cleanup(s: State, now: real): (State, bool) {
    if Since(now, s.lastCleanup) < CLEANUP_INTERVAL then (s, false)
    else
      var kept := Kept(s.buckets, now);
      (s.(buckets := kept, count := s.count - (|s.buckets.Keys| - |kept.Keys|), lastCleanup := now), true)
  }

  predicate Admits(s: State, key: ClientKey) {
    key in s.buckets || s.count < s.max
  }

  /** The client's bucket, created full when there is room. */
  function Enter(s: State, key: ClientKey, now: real, capacity: real): (r: State)
    requires Admits(s, key)
    ensures key in r.buckets
  {
    if key in s.buckets then s
    else s.(buckets := s.buckets[key := Bucket(capacity, now)], count := s.count + 1)
  }

  /** The tokens in a bucket once it is refilled, at most to its capacity. */
  function Refilled(b: Bucket, now: real, rate: real, capacity: real): real {
    LeastOf(b.tokens + Since(now, b.updatedAt) * rate, capacity)
  }

  /** Refill the bucket and take one token if there is one. */
  function Take(s: State, key: ClientKey, now: real, rate: real, capacity: real): (State, bool)
    requires key in s.buckets
  {
    var tokens := Refilled(s.buckets[key], now, rate, capacity);
    if tokens >= 1.0 then (s.(buckets := s.buckets[key := Bucket(tokens - 1.0, now)]), true)
    else (s.(buckets := s.buckets[key := Bucket(tokens, now)]), false)
  }

  datatype Call = Call(key: ClientKey, now: real, rate: real, burst: nat, sampled: bool)

  function Capacity(burst: nat): real {
    burst as real + 1.0
  }

  /** A full map is scanned once, then the entry is tried a second time. */
  function AfterScans(s: State, c: Call): State {
    var s0 := if c.sampled then Cleanup(s, c.now).0 else s;
    if Admits(s0, c.key) then s0 else Cleanup(s0, c.now).0
  }

  function Decide(s: State, c: Call): (State, bool) {
    var s1 := AfterScans(s, c);
    if Admits(s1, c.key)
    then Take(Enter(s1, c.key, c.now, Capacity(c.burst)), c.key, c.now, c.rate, Capacity(c.burst))
    else (s1, false)
  }

  function Run(s: State, calls: seq<Call>): State {
    if calls == [] then s else var last := |calls| - 1; Decide(Run(s, calls[..last]), calls[last]).0
  }

  /** How many calls for `key` were allowed. */
  function Granted(s: State, calls: seq<Call>, key: ClientKey): nat {
    if calls == [] then 0
    else
      var last := |calls| - 1;
      Granted(s, calls[..last], key)
      + if calls[last].key == key && Decide(Run(s, calls[..last]), calls[last]).1 then 1 else 0
  }

  // ----- the program's own form -------------------------------------------------------------------

  class RateLimiter {
    var buckets: map<ClientKey, Bucket>
    var bucketCount: int
    const maxBuckets: nat
    var lastCleanup: real

    function Abs(): State
      reads this
    {
      State(maxBuckets, buckets, bucketCount, lastCleanup)
    }

    constructor (max: nat, now: real)
      ensures Abs() == Start(max, now)
    {
      buckets, bucketCount, maxBuckets, lastCleanup := map[], 0, max, now - CLEANUP_INTERVAL;
    }

    method CleanupIdle(now: real) returns (scanned: bool)
      modifies this
      ensures (Abs(), scanned) == Cleanup(old(Abs()), now)
    {
      if Since(now, lastCleanup) < CLEANUP_INTERVAL { return false; }
      lastCleanup := now;
      ghost var was := buckets;
      var removed, todo := 0, buckets.Keys;
      while todo != {}
        invariant todo <= was.Keys
        invariant buckets == map k | k in was && (k in todo || Keep(was[k], now)) :: was[k]
        invariant removed == |was.Keys| - |buckets.Keys|
        invariant bucketCount == old(bucketCount) && lastCleanup == now
        decreases |todo|
      {
        var k :| k in todo;
        if !Keep(buckets[k], now) {
          DropKey(buckets, k);
          buckets := buckets - {k};
          removed := removed + 1;
        }
        todo := todo - {k};
      }
      bucketCount := bucketCount - removed;
      assert buckets == Kept(was, now);
      return true;
    }

    /** The bucket of the client, made if there is room, after at most one extra scan. */
    method FindBucket(c: Call) returns (found: bool)
      modifies this
      ensures var s0 := old(Abs());
              var s1 := if Admits(s0, c.key) then s0 else Cleanup(s0, c.now).0;
              && found == Admits(s1, c.key)
              && Abs() == if found then Enter(s1, c.key, c.now, Capacity(c.burst)) else s1
    {
      var retried := false;
      ghost var s0 := Abs();
      while c.key !in buckets
        invariant !retried ==> Abs() == s0
        invariant retried ==> !Admits(s0, c.key) && Cleanup(s0, c.now) == (Abs(), true)
        decreases !retried, c.key !in buckets
      {
        if bucketCount < maxBuckets {
          buckets, bucketCount := buckets[c.key := Bucket(Capacity(c.burst), c.now)], bucketCount + 1;
          return true;
        }
        if retried { return false; }
        var scanned := CleanupIdle(c.now);
        if !scanned { return false; }
        retried := true;
      }
      return true;
    }

    method TakeToken(c: Call) returns (allowed: bool)
      requires c.key in buckets
      modifies this
      ensures (Abs(), allowed) == Take(old(Abs()), c.key, c.now, c.rate, Capacity(c.burst))
    {
      var tokens := Refilled(buckets[c.key], c.now, c.rate, Capacity(c.burst));
      allowed := tokens >= 1.0;
      if allowed { tokens := tokens - 1.0; }
      buckets := buckets[c.key := Bucket(tokens, c.now)];
    }

    method Allow(c: Call) returns (allowed: bool)
      modifies this
      ensures (Abs(), allowed) == Decide(old(Abs()), c)
    {
      if c.sampled { var _ := CleanupIdle(c.now); }
      var found := FindBucket(c);
      if !found { return false; }
      allowed := TakeToken(c);
    }
  }

  function Start(max: nat, now: real): State {
    State(max, map[], 0, now - CLEANUP_INTERVAL)
  }

  // ----- the map stays bounded ----------------------------------------------------------------------

  ghost predicate Bounded(s: State) {
    s.count == |s.buckets.Keys| && s.count <= s.max
  }

  lemma CleanupBounded(s: State, now: real)
    requires Bounded(s)
    ensures Bounded(Cleanup(s, now).0)
  {
    var kept := Kept(s.buckets, now);
    Smaller(kept.Keys, s.buckets.Keys);
  }

  lemma ScansBounded(s: State, c: Call)
    requires Bounded(s)
    ensures Bounded(AfterScans(s, c))
  {
    CleanupBounded(s, c.now);
    CleanupBounded(if c.sampled then Cleanup(s, c.now).0 else s, c.now);
  }

  lemma TakeBounded(s: State, key: ClientKey, now: real, rate: real, capacity: real)
    requires Bounded(s) && key in s.buckets
    ensures Bounded(Take(s, key, now, rate, capacity).0)
  {
    AddKey(s.buckets, key, Take(s, key, now, rate, capacity).0.buckets[key]);
  }

  lemma DecideBounded(s: State, c: Call)
    requires Bounded(s)
    ensures Bounded(Decide(s, c).0)
  {
    ScansBounded(s, c);
    var s1 := AfterScans(s, c);
    if Admits(s1, c.key) {
      AddKey(s1.buckets, c.key, Bucket(Capacity(c.burst), c.now));
      TakeBounded(Enter(s1, c.key, c.now, Capacity(c.burst)), c.key, c.now, c.rate, Capacity(c.burst));
    }
  }

  /** Whatever the calls and the clock, the slot count is the size of the map and stays within
      the bound. */
  lemma {:induction false} BucketsAreBounded(max: nat, start: real, calls: seq<Call>)
    ensures Bounded(Run(Start(max, start), calls))
    decreases |calls|
  {
    if calls != [] {
      var last := |calls| - 1;
      BucketsAreBounded(max, start, calls[..last]);
      DecideBounded(Run(Start(max, start), calls[..last]), calls[last]);
    }
  }

  // ----- the rate bound -------------------------------------------------------------------------------

  ghost predicate NonNegative(s: State) {
    forall k :: k in s.buckets ==> s.buckets[k].tokens >= 0.0
  }

  lemma TakeNonNegative(s: State, key: ClientKey, now: real, rate: real, capacity: real)
    requires NonNegative(s) && key in s.buckets && rate > 0.0 && capacity >= 0.0
    ensures NonNegative(Take(s, key, now, rate, capacity).0)
  {
    assert Since(now, s.buckets[key].updatedAt) * rate >= 0.0;
  }

  lemma {:induction false} RunNonNegative(max: nat, start: real, calls: seq<Call>)
    requires Positive(calls)
    ensures NonNegative(Run(Start(max, start), calls))
    decreases |calls|
  {
    if calls != [] {
      var last := |calls| - 1;
      RunNonNegative(max, start, calls[..last]);
      DecideNonNegative(Run(Start(max, start), calls[..last]), calls[last]);
    }
  }

  lemma DecideNonNegative(s: State, c: Call)
    requires NonNegative(s) && c.rate > 0.0
    ensures NonNegative(Decide(s, c).0)
  {
    var s1 := AfterScans(s, c);
    if Admits(s1, c.key) {
      TakeNonNegative(Enter(s1, c.key, c.now, Capacity(c.burst)), c.key, c.now, c.rate, Capacity(c.burst));
    }
  }

  /** The tokens the client would find at `now`: an absent bucket is worth a full one. */
  function Level(s: State, key: ClientKey, now: real, rate: real, capacity: real): real {
    if key in s.buckets
    then Refilled(s.buckets[key], now, rate, capacity)
    else capacity
  }

  /** Evicting an idle bucket gives nothing away when it would have refilled meanwhile. */
  lemma CleanupKeepsLevel(s: State, key: ClientKey, now: real, rate: real, capacity: real)
    requires NonNegative(s) && rate > 0.0 && capacity <= IDLE * rate
    ensures NonNegative(Cleanup(s, now).0)
    ensures Level(Cleanup(s, now).0, key, now, rate, capacity) == Level(s, key, now, rate, capacity)
  {
    if key in s.buckets && !Keep(s.buckets[key], now) {
      assert Since(now, s.buckets[key].updatedAt) * rate >= IDLE * rate;
    }
  }

  /** From one clock reading to another the level rises by no more than a refill, and by nothing
      when the second reading is the earlier one. */
  lemma LevelRises(s: State, key: ClientKey, p: real, now: real, rate: real, capacity: real)
    requires rate > 0.0
    ensures Level(s, key, now, rate, capacity) <= Level(s, key, p, rate, capacity) + rate * Since(now, p)
  {
    Grows(rate, 0.0, Since(now, p));
    if key in s.buckets {
      var u := s.buckets[key].updatedAt;
      Grows(rate, Since(now, u), Since(p, u) + Since(now, p));
      Distribute(rate, Since(p, u), Since(now, p));
    }
  }

  lemma Grows(rate: real, a: real, b: real)
    requires rate >= 0.0 && a <= b
    ensures rate * a <= rate * b
  {
    assert rate * (b - a) >= 0.0;
  }

  lemma Distribute(rate: real, a: real, b: real)
    ensures rate * (a + b) == rate * a + rate * b
  {
  }

  lemma ScansKeepLevel(s: State, c: Call, key: ClientKey, rate: real, capacity: real)
    requires NonNegative(s) && rate > 0.0 && capacity <= IDLE * rate
    ensures Level(AfterScans(s, c), key, c.now, rate, capacity) == Level(s, key, c.now, rate, capacity)
  {
    CleanupKeepsLevel(s, key, c.now, rate, capacity);
    CleanupKeepsLevel(if c.sampled then Cleanup(s, c.now).0 else s, key, c.now, rate, capacity);
  }

  /** An allowed call takes one token of the level, a refused one none, and calls of other
      clients leave it alone, scans included. */
  lemma DecideSpends(s: State, c: Call, key: ClientKey, rate: real, burst: nat)
    requires NonNegative(s) && rate > 0.0 && Capacity(burst) <= IDLE * rate
    requires c.key == key ==> c.rate == rate && c.burst == burst
    ensures Level(Decide(s, c).0, key, c.now, rate, Capacity(burst))
            + (if c.key == key && Decide(s, c).1 then 1.0 else 0.0)
            == Level(s, key, c.now, rate, Capacity(burst))
  {
    var capacity := Capacity(burst);
    ScansKeepLevel(s, c, key, rate, capacity);
    var s1 := AfterScans(s, c);
    if Admits(s1, c.key) {
      if c.key == key {
        EnterKeepsLevel(s1, key, c.now, rate, capacity);
        TakeSpends(Enter(s1, key, c.now, capacity), key, c.now, rate, capacity);
      } else {
        OthersKeepLevel(s1, c, key, rate, capacity);
      }
    }
  }

  lemma OthersKeepLevel(s: State, c: Call, key: ClientKey, rate: real, capacity: real)
    requires Admits(s, c.key) && c.key != key
    ensures var s2 := Take(Enter(s, c.key, c.now, Capacity(c.burst)), c.key, c.now, c.rate, Capacity(c.burst)).0;
            Level(s2, key, c.now, rate, capacity) == Level(s, key, c.now, rate, capacity)
  {
  }

  lemma EnterKeepsLevel(s: State, key: ClientKey, now: real, rate: real, capacity: real)
    requires Admits(s, key)
    ensures Level(Enter(s, key, now, capacity), key, now, rate, capacity) == Level(s, key, now, rate, capacity)
  {
    assert Since(now, now) * rate == 0.0;
  }

  lemma TakeSpends(s: State, key: ClientKey, now: real, rate: real, capacity: real)
    requires key in s.buckets
    ensures Level(Take(s, key, now, rate, capacity).0, key, now, rate, capacity)
            + (if Take(s, key, now, rate, capacity).1 then 1.0 else 0.0)
            == Level(s, key, now, rate, capacity)
  {
    assert Since(now, now) * rate == 0.0;
  }

  /** The clock does not run backwards within the window, which starts at `from`. */
  ghost predicate Window(calls: seq<Call>, from: real, until: real) {
    && from <= until
    && (forall i :: 0 <= i < |calls| ==> from <= calls[i].now <= until)
    && (forall i, j :: 0 <= i <= j < |calls| ==> calls[i].now <= calls[j].now)
  }

  ghost predicate Fixed(calls: seq<Call>, key: ClientKey, rate: real, burst: nat) {
    forall i :: 0 <= i < |calls| ==>
      calls[i].rate > 0.0 && (calls[i].key == key ==> calls[i].rate == rate && calls[i].burst == burst)
  }

  function End(calls: seq<Call>, from: real): real {
    if calls == [] then from else calls[|calls| - 1].now
  }

  /** How far the readings move forwards in all, and how far they fall back. */
  function Forward(calls: seq<Call>, from: real): real {
    if calls == [] then 0.0
    else var last := |calls| - 1; Forward(calls[..last], from) + Since(calls[last].now, End(calls[..last], from))
  }

  function Late(calls: seq<Call>, from: real): real {
    if calls == [] then 0.0
    else var last := |calls| - 1; Late(calls[..last], from) + Since(End(calls[..last], from), calls[last].now)
  }

  lemma {:induction false} ForwardIsElapsedPlusLate(calls: seq<Call>, from: real)
    ensures Forward(calls, from) == End(calls, from) - from + Late(calls, from)
    decreases |calls|
  {
    if calls != [] { ForwardIsElapsedPlusLate(calls[..|calls| - 1], from); }
  }

  lemma {:induction false} NothingIsLate(calls: seq<Call>, from: real, until: real)
    requires Window(calls, from, until)
    ensures Late(calls, from) == 0.0
    decreases |calls|
  {
    if calls != [] { NothingIsLate(calls[..|calls| - 1], from, until); }
  }

  /** What is left of the client's budget when readings have moved forward by `moved`. */
  function Budget(s: State, key: ClientKey, now: real, rate: real, burst: nat, moved: real): real {
    Level(s, key, now, rate, Capacity(burst)) - rate * moved
  }

  lemma BudgetFalls(s: State, key: ClientKey, p: real, now: real, rate: real, burst: nat, moved: real)
    requires rate > 0.0
    ensures Budget(s, key, now, rate, burst, moved + Since(now, p)) <= Budget(s, key, p, rate, burst, moved)
  {
    LevelRises(s, key, p, now, rate, Capacity(burst));
    Distribute(rate, moved, Since(now, p));
  }

  lemma BudgetSpent(s: State, c: Call, key: ClientKey, rate: real, burst: nat, moved: real)
    requires NonNegative(s) && rate > 0.0 && Capacity(burst) <= IDLE * rate
    requires c.key == key ==> c.rate == rate && c.burst == burst
    ensures (if c.key == key && Decide(s, c).1 then 1.0 else 0.0) + Budget(Decide(s, c).0, key, c.now, rate, burst, moved)
            == Budget(s, key, c.now, rate, burst, moved)
  {
    DecideSpends(s, c, key, rate, burst);
  }

  lemma OneMoreSpends(s: State, c: Call, key: ClientKey, rate: real, burst: nat, p: real, moved: real)
    requires NonNegative(s) && rate > 0.0 && Capacity(burst) <= IDLE * rate
    requires c.rate > 0.0 && (c.key == key ==> c.rate == rate && c.burst == burst)
    ensures NonNegative(Decide(s, c).0)
    ensures (if c.key == key && Decide(s, c).1 then 1.0 else 0.0)
            + Budget(Decide(s, c).0, key, c.now, rate, burst, moved + Since(c.now, p))
            <= Budget(s, key, p, rate, burst, moved)
  {
    DecideNonNegative(s, c);
    BudgetFalls(s, key, p, c.now, rate, burst, moved);
    BudgetSpent(s, c, key, rate, burst, moved + Since(c.now, p));
  }

  /** In whatever order the clock readings come, what is granted and what is left never exceed
      what was there and the refill of every forward move of the readings. */
  lemma {:induction false} CallsSpend(s: State, calls: seq<Call>, key: ClientKey, rate: real, burst: nat, from: real)
    requires NonNegative(s) && rate > 0.0 && Capacity(burst) <= IDLE * rate && Fixed(calls, key, rate, burst)
    ensures NonNegative(Run(s, calls))
    ensures Granted(s, calls, key) as real
            + Budget(Run(s, calls), key, End(calls, from), rate, burst, Forward(calls, from))
            <= Budget(s, key, from, rate, burst, 0.0)
    decreases |calls|
  {
    if calls != [] {
      var last := |calls| - 1;
      var before, c := calls[..last], calls[last];
      CallsSpend(s, before, key, rate, burst, from);
      OneMoreSpends(Run(s, before), c, key, rate, burst, End(before, from), Forward(before, from));
    }
  }

  /** No more than a burst plus one, and the refill of `elapsed` seconds. */
  predicate AtMost(granted: nat, rate: real, burst: nat, elapsed: real) {
    granted as real <= Capacity(burst) + rate * elapsed
  }

  lemma AtMostGrows(granted: nat, rate: real, burst: nat, a: real, b: real)
    requires rate > 0.0 && a <= b && AtMost(granted, rate, burst, a)
    ensures AtMost(granted, rate, burst, b)
  {
    Grows(rate, a, b);
  }

  lemma BudgetAtStart(s: State, key: ClientKey, now: real, rate: real, burst: nat)
    requires NonNegative(s) && rate > 0.0
    ensures Budget(s, key, now, rate, burst, 0.0) <= Capacity(burst)
  {
    LevelIsLevel(s, key, now, rate, burst);
  }

  lemma BudgetLeft(s: State, key: ClientKey, now: real, rate: real, burst: nat, moved: real, granted: nat)
    requires NonNegative(s) && rate > 0.0
    requires granted as real + Budget(s, key, now, rate, burst, moved) <= Capacity(burst)
    ensures AtMost(granted, rate, burst, moved)
  {
    LevelIsLevel(s, key, now, rate, burst);
  }

  lemma ForwardBounds(s: State, calls: seq<Call>, key: ClientKey, rate: real, burst: nat, from: real)
    requires NonNegative(s) && rate > 0.0 && Capacity(burst) <= IDLE * rate && Fixed(calls, key, rate, burst)
    ensures AtMost(Granted(s, calls, key), rate, burst, Forward(calls, from))
  {
    CallsSpend(s, calls, key, rate, burst, from);
    BudgetAtStart(s, key, from, rate, burst);
    BudgetLeft(Run(s, calls), key, End(calls, from), rate, burst, Forward(calls, from), Granted(s, calls, key));
  }

  /** Whatever came before and in whatever order clock readings reach the limiter, the client gets
      at most its burst plus one, plus the rate times the time from `from` to the last reading,
      plus the rate times all that readings came late. */
  lemma LateReadingsCostTheirDelay(max: nat, start: real, before: seq<Call>, calls: seq<Call>,
                                   key: ClientKey, rate: real, burst: nat, from: real)
    requires rate > 0.0 && Capacity(burst) <= IDLE * rate
    requires Positive(before) && Fixed(calls, key, rate, burst)
    ensures AtMost(Granted(Run(Start(max, start), before), calls, key), rate, burst,
                   End(calls, from) - from + Late(calls, from))
  {
    RunNonNegative(max, start, before);
    ForwardIsElapsedPlusLate(calls, from);
    ForwardBounds(Run(Start(max, start), before), calls, key, rate, burst, from);
  }

  /** The number of calls allowed in a window of length `until - from`. */
  ghost predicate RateHolds(s: State, calls: seq<Call>, key: ClientKey, rate: real, burst: nat, from: real, until: real) {
    AtMost(Granted(s, calls, key), rate, burst, until - from)
  }

  /** Whatever came before, in any window with a clock that does not run backwards the client
      gets at most its burst plus one plus the rate times the window, although idle buckets
      are evicted and come back full. */
  lemma RateIsBounded(max: nat, start: real, before: seq<Call>, calls: seq<Call>,
                      key: ClientKey, rate: real, burst: nat, from: real, until: real)
    requires rate > 0.0 && Capacity(burst) <= IDLE * rate
    requires Positive(before)
    requires Fixed(calls, key, rate, burst) && Window(calls, from, until)
    ensures RateHolds(Run(Start(max, start), before), calls, key, rate, burst, from, until)
  {
    LateReadingsCostTheirDelay(max, start, before, calls, key, rate, burst, from);
    NothingIsLate(calls, from, until);
    AtMostGrows(Granted(Run(Start(max, start), before), calls, key), rate, burst,
                End(calls, from) - from + Late(calls, from), until - from);
  }

  lemma LevelIsLevel(s: State, key: ClientKey, now: real, rate: real, burst: nat)
    requires NonNegative(s) && rate > 0.0
    ensures 0.0 <= Level(s, key, now, rate, Capacity(burst)) <= Capacity(burst)
  {
    if key in s.buckets { assert Since(now, s.buckets[key].updatedAt) * rate >= 0.0; }
  }

  // ----- and it needs the condition -----------------------------------------------------------------------

  function Again(c: Call, n: nat): (r: seq<Call>)
    ensures |r| == n && forall i :: 0 <= i < n ==> r[i] == c
  {
    if n == 0 then [] else Again(c, n - 1) + [c]
  }

  lemma {:induction false} RunConcat(s: State, a: seq<Call>, b: seq<Call>, key: ClientKey)
    ensures Run(s, a + b) == Run(Run(s, a), b)
    ensures Granted(s, a + b, key) == Granted(s, a, key) + Granted(Run(s, a), b, key)
    decreases |b|
  {
    if b == [] {
      assert a + b == a;
    } else {
      var last := |b| - 1;
      assert (a + b)[..|a + b| - 1] == a + b[..last];
      RunConcat(s, a, b[..last], key);
    }
  }

  lemma RunSnoc(s: State, calls: seq<Call>, c: Call, key: ClientKey)
    ensures Run(s, calls + [c]) == Decide(Run(s, calls), c).0
    ensures Granted(s, calls + [c], key)
            == Granted(s, calls, key) + if c.key == key && Decide(Run(s, calls), c).1 then 1 else 0
  {
    assert (calls + [c])[..|calls + [c]| - 1] == calls;
  }

  lemma OneToken(s: State, c: Call)
    requires c.key in s.buckets && !c.sampled
    requires s.buckets[c.key].updatedAt == c.now && 1.0 <= s.buckets[c.key].tokens <= Capacity(c.burst)
    ensures Decide(s, c).1
    ensures Decide(s, c).0 == s.(buckets := s.buckets[c.key := Bucket(s.buckets[c.key].tokens - 1.0, c.now)])
  {
    assert Since(c.now, s.buckets[c.key].updatedAt) * c.rate == 0.0;
  }

  /** A bucket with at least `n` tokens answers `n` calls at one instant. */
  lemma {:induction false} Drains(s: State, c: Call, n: nat, tokens: real)
    requires c.key in s.buckets && !c.sampled && s.buckets[c.key] == Bucket(tokens, c.now)
    requires n as real <= tokens <= Capacity(c.burst)
    ensures Granted(s, Again(c, n), c.key) == n
    ensures Run(s, Again(c, n)) == s.(buckets := s.buckets[c.key := Bucket(tokens - n as real, c.now)])
    decreases n
  {
    if n > 0 {
      Drains(s, c, n - 1, tokens);
      var s1 := Run(s, Again(c, n - 1));
      RunSnoc(s, Again(c, n - 1), c, c.key);
      OneToken(s1, c);
      var left := tokens - (n - 1) as real;
      assert left - 1.0 == tokens - n as real;
      assert s1.buckets[c.key := Bucket(left - 1.0, c.now)] == s.buckets[c.key := Bucket(tokens - n as real, c.now)];
    } else {
      assert s.buckets[c.key := s.buckets[c.key]] == s.buckets;
    }
  }

  /** The scans of the call leave no bucket. */
  ghost predicate FindsNothing(s: State, c: Call) {
    var s1 := AfterScans(s, c);
    s1.buckets == map[] && s1.count == 0 && s1.max >= 1
  }

  lemma FullBucketTakes(s: State, key: ClientKey, now: real, rate: real, burst: nat)
    requires key in s.buckets && s.buckets[key] == Bucket(Capacity(burst), now)
    ensures Take(s, key, now, rate, Capacity(burst)) == (s.(buckets := s.buckets[key := Bucket(burst as real, now)]), true)
  {
    assert Since(now, now) * rate == 0.0;
  }

  lemma FirstToken(s: State, c: Call)
    requires FindsNothing(s, c)
    ensures Decide(s, c).1
    ensures Decide(s, c).0 == AfterScans(s, c).(buckets := map[c.key := Bucket(c.burst as real, c.now)], count := 1)
  {
    var s1 := AfterScans(s, c);
    FullBucketTakes(Enter(s1, c.key, c.now, Capacity(c.burst)), c.key, c.now, c.rate, c.burst);
    assert s1.buckets[c.key := Bucket(Capacity(c.burst), c.now)][c.key := Bucket(c.burst as real, c.now)]
        == map[c.key := Bucket(c.burst as real, c.now)];
  }

  /** A full bucket's worth of calls at one instant, the first of which finds no bucket. */
  function BurstOf(first: Call): seq<Call> {
    [first] + Again(first.(sampled := false), first.burst)
  }

  lemma BurstIsGranted(s: State, first: Call)
    requires FindsNothing(s, first)
    ensures Granted(s, BurstOf(first), first.key) == first.burst + 1
    ensures Run(s, BurstOf(first))
            == AfterScans(s, first).(buckets := map[first.key := Bucket(0.0, first.now)], count := 1)
  {
    FirstToken(s, first);
    RunSnoc(s, [], first, first.key);
    assert [] + [first] == [first];
    RestOfBurst(Decide(s, first).0, first);
    RunConcat(s, [first], Again(first.(sampled := false), first.burst), first.key);
  }

  lemma RestOfBurst(s: State, first: Call)
    requires s.buckets == map[first.key := Bucket(first.burst as real, first.now)]
    ensures var rest := first.(sampled := false);
            && Granted(s, Again(rest, rest.burst), first.key) == first.burst
            && Run(s, Again(rest, rest.burst)) == s.(buckets := map[first.key := Bucket(0.0, first.now)])
  {
    var rest := first.(sampled := false);
    Drains(s, rest, rest.burst, rest.burst as real);
    assert rest.burst as real - rest.burst as real == 0.0;
    assert s.buckets[first.key := Bucket(0.0, first.now)] == map[first.key := Bucket(0.0, first.now)];
  }

  lemma TwoBurstsAreTooMany(n: nat, rate: real, burst: nat)
    requires n == 2 * (burst + 1) && Capacity(burst) > IDLE * rate
    ensures n as real > Capacity(burst) + rate * (IDLE - 0.0)
  {
    assert n as real == 2.0 * Capacity(burst);
  }

  /** Without the condition a client that spends a burst, stays away for the idle time and
      spends another gets more than the bound. */
  lemma RateBoundNeedsRefill(key: ClientKey, rate: real, burst: nat) returns (calls: seq<Call>)
    requires rate > 0.0 && Capacity(burst) > IDLE * rate
    ensures Fixed(calls, key, rate, burst) && Window(calls, 0.0, IDLE)
    ensures !RateHolds(Start(1, 0.0), calls, key, rate, burst, 0.0, IDLE)
  {
    var a := Call(key, 0.0, rate, burst, false);
    var b := Call(key, IDLE, rate, burst, true);
    calls := BurstOf(a) + BurstOf(b);
    TwoBursts(a, b);
    TwoBurstsFit(a, b);
    TwoBurstsAreTooMany(Granted(Start(1, 0.0), calls, key), rate, burst);
  }

  lemma TwoBursts(a: Call, b: Call)
    requires a.now == 0.0 && !a.sampled && b == a.(now := IDLE, sampled := true)
    ensures Granted(Start(1, 0.0), BurstOf(a) + BurstOf(b), a.key) == 2 * (a.burst + 1)
  {
    var s := Start(1, 0.0);
    BurstIsGranted(s, a);
    var s1 := Run(s, BurstOf(a));
    ScanEvicts(s1, b);
    BurstIsGranted(s1, b);
    RunConcat(s, BurstOf(a), BurstOf(b), a.key);
  }

  lemma TwoBurstsFit(a: Call, b: Call)
    requires a.now == 0.0 && !a.sampled && a.rate > 0.0 && b == a.(now := IDLE, sampled := true)
    ensures Fixed(BurstOf(a) + BurstOf(b), a.key, a.rate, a.burst)
    ensures Window(BurstOf(a) + BurstOf(b), 0.0, IDLE)
  {
    var calls := BurstOf(a) + BurstOf(b);
    forall i | 0 <= i < |calls|
      ensures calls[i] == a || calls[i] == b || calls[i] == b.(sampled := false)
      ensures calls[i] == a <==> i < a.burst + 1
    {
      assert calls[i] == if i < a.burst + 1 then BurstOf(a)[i] else BurstOf(b)[i - (a.burst + 1)];
    }
  }

  lemma ScanEvicts(s: State, c: Call)
    requires s.buckets == map[c.key := Bucket(0.0, 0.0)] && s.count == 1 && s.max == 1
    requires s.lastCleanup == -CLEANUP_INTERVAL && c.now == IDLE && c.sampled
    ensures FindsNothing(s, c)
  {
    assert Kept(s.buckets, c.now) == map[];
    assert s.buckets.Keys == {c.key};
  }

  ghost predicate Positive(calls: seq<Call>) {
    forall i :: 0 <= i < |calls| ==> calls[i].rate > 0.0
  }

  /** The bound holds of every window of every run. */
  ghost predicate AlwaysHolds(key: ClientKey, rate: real, burst: nat) {
    forall max: nat, start, before, calls, from, until ::
      Positive(before) && Fixed(calls, key, rate, burst) && Window(calls, from, until) ==>
        RateHolds(Run(Start(max, start), before), calls, key, rate, burst, from, until)
  }

  /** The bound holds exactly for clients whose burst refills within the idle time. */
  lemma RateHoldsExactly(key: ClientKey, rate: real, burst: nat)
    requires rate > 0.0
    ensures AlwaysHolds(key, rate, burst) <==> Capacity(burst) <= IDLE * rate
  {
    if Capacity(burst) <= IDLE * rate {
      forall max: nat, start, before, calls, from, until
        | Positive(before) && Fixed(calls, key, rate, burst) && Window(calls, from, until)
        ensures RateHolds(Run(Start(max, start), before), calls, key, rate, burst, from, until)
      {
        RateIsBounded(max, start, before, calls, key, rate, burst, from, until);
      }
      assert AlwaysHolds(key, rate, burst);
    } else {
      var calls := RateBoundNeedsRefill(key, rate, burst);
      assert Positive([]);
      assert Run(Start(1, 0.0), []) == Start(1, 0.0);
      assert !RateHolds(Run(Start(1, 0.0), []), calls, key, rate, burst, 0.0, IDLE);
    }
  }

  // ----- calls that are allowed ---------------------------------------------------------------------------

  /** The client's bucket holds no less than nothing, and the map has it or room for it. */
  ghost predicate Ready(s: State, key: ClientKey) {
    NonNegative(s) && Bounded(s) && s.max >= 1 && forall k :: k in s.buckets ==> k == key
  }

  lemma ReadyScans(s: State, c: Call)
    requires Ready(s, c.key)
    ensures Ready(AfterScans(s, c), c.key) && Admits(AfterScans(s, c), c.key)
    ensures c.key in AfterScans(s, c).buckets ==> c.key in s.buckets && AfterScans(s, c).buckets[c.key] == s.buckets[c.key]
  {
    ScansBounded(s, c);
    var s1 := AfterScans(s, c);
    if c.key !in s1.buckets { assert s1.buckets.Keys == {}; }
    if c.key !in s.buckets { assert s.buckets.Keys == {}; }
  }

  lemma EnoughIsTaken(s: State, key: ClientKey, now: real, rate: real, capacity: real)
    requires key in s.buckets && capacity >= 1.0
    requires s.buckets[key].tokens + Since(now, s.buckets[key].updatedAt) * rate >= 1.0
    ensures Take(s, key, now, rate, capacity).1
    ensures Take(s, key, now, rate, capacity).0.buckets.Keys == s.buckets.Keys
    ensures Take(s, key, now, rate, capacity).0.buckets[key].updatedAt == now
  {
  }

  /** The last call for the client, if its bucket is still there, was at least one token's refill ago. */
  predicate Rested(s: State, c: Call, delay: real) {
    c.key in s.buckets ==> s.buckets[c.key].updatedAt + delay <= c.now
  }

  lemma RestedIsAllowed(s: State, c: Call, delay: real)
    requires Ready(s, c.key) && Rested(s, c, delay) && c.rate > 0.0 && delay > 0.0 && delay * c.rate == 1.0
    ensures Decide(s, c).1 && Ready(Decide(s, c).0, c.key)
    ensures c.key in Decide(s, c).0.buckets && Decide(s, c).0.buckets[c.key].updatedAt == c.now
  {
    ReadyScans(s, c);
    DecideBounded(s, c);
    DecideNonNegative(s, c);
    var s1 := AfterScans(s, c);
    var s2 := Enter(s1, c.key, c.now, Capacity(c.burst));
    if c.key in s1.buckets {
      Grows(c.rate, delay, Since(c.now, s1.buckets[c.key].updatedAt));
    } else {
      assert Since(c.now, c.now) * c.rate == 0.0;
    }
    EnoughIsTaken(s2, c.key, c.now, c.rate, Capacity(c.burst));
  }

  /** Calls of one client, each at least `delay` after the one before. */
  ghost predicate Spaced(calls: seq<Call>, key: ClientKey, rate: real, delay: real) {
    && (forall i :: 0 <= i < |calls| ==> calls[i].key == key && calls[i].rate == rate)
    && (forall i :: 0 < i < |calls| ==> calls[i - 1].now + delay <= calls[i].now)
  }

  /** The one client's bucket, if there is one, was last touched by the last of the calls. */
  ghost predicate TouchedLast(s: State, calls: seq<Call>, key: ClientKey) {
    Ready(s, key) && (key in s.buckets ==> calls != [] && s.buckets[key].updatedAt == calls[|calls| - 1].now)
  }

  lemma NextIsRested(s: State, calls: seq<Call>, key: ClientKey, rate: real, delay: real)
    requires calls != [] && Spaced(calls, key, rate, delay) && TouchedLast(s, calls[..|calls| - 1], key)
    ensures Rested(s, calls[|calls| - 1], delay)
  {
  }

  lemma OneCallMore(s0: State, calls: seq<Call>, decided: (State, bool))
    requires calls != [] && decided == Decide(Run(s0, calls[..|calls| - 1]), calls[|calls| - 1])
    ensures Run(s0, calls) == decided.0
    ensures Granted(s0, calls, calls[|calls| - 1].key)
         == Granted(s0, calls[..|calls| - 1], calls[|calls| - 1].key) + if decided.1 then 1 else 0
  {
  }

  lemma OnePatientCall(s: State, calls: seq<Call>, key: ClientKey, rate: real, delay: real) returns (decided: (State, bool))
    requires calls != [] && Spaced(calls, key, rate, delay) && rate > 0.0 && delay > 0.0 && delay * rate == 1.0
    requires TouchedLast(s, calls[..|calls| - 1], key)
    ensures decided == Decide(s, calls[|calls| - 1]) && decided.1 && TouchedLast(decided.0, calls, key)
  {
    decided := Decide(s, calls[|calls| - 1]);
    NextIsRested(s, calls, key, rate, delay);
    RestedIsAllowed(s, calls[|calls| - 1], delay);
  }

  lemma {:induction false} PatientFrom(s0: State, calls: seq<Call>, key: ClientKey, rate: real, delay: real)
    requires Ready(s0, key) && s0.buckets == map[]
    requires Spaced(calls, key, rate, delay) && rate > 0.0 && delay > 0.0 && delay * rate == 1.0
    ensures Granted(s0, calls, key) == |calls| && TouchedLast(Run(s0, calls), calls, key)
    decreases |calls|
  {
    if calls != [] {
      var before := calls[..|calls| - 1];
      PatientFrom(s0, before, key, rate, delay);
      var decided := OnePatientCall(Run(s0, before), calls, key, rate, delay);
      OneCallMore(s0, calls, decided);
    }
  }

  /** A client that waits for one token's refill between its calls is never refused. */
  lemma PatientClientPasses(max: nat, start: real, calls: seq<Call>, key: ClientKey, rate: real, delay: real)
    requires max >= 1 && rate > 0.0 && delay > 0.0 && delay * rate == 1.0 && Spaced(calls, key, rate, delay)
    ensures Granted(Start(max, start), calls, key) == |calls|
  {
    PatientFrom(Start(max, start), calls, key, rate, delay);
  }

  /** A full map that holds an idle bucket does not keep a new client out, if a scan is due. */
  lemma IdleBucketMakesRoom(s: State, c: Call, idle: ClientKey)
    requires Bounded(s) && c.key !in s.buckets && !c.sampled && idle in s.buckets
    requires Since(c.now, s.buckets[idle].updatedAt) >= 120.0 && Since(c.now, s.lastCleanup) >= 1.0
    ensures Decide(s, c).1
  {
    var s1 := AfterScans(s, c);
    if !Admits(s, c.key) {
      var kept := Kept(s.buckets, c.now);
      assert kept.Keys <= s.buckets.Keys - {idle};
      Smaller(kept.Keys, s.buckets.Keys - {idle});
    }
    FullBucketTakes(Enter(s1, c.key, c.now, Capacity(c.burst)), c.key, c.now, c.rate, c.burst);
  }
}
