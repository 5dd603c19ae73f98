/**
  What late clock readings do to the token-bucket limiter (src/limits.rs).  A call reads the
  clock before it locks its bucket, so readings can reach a bucket out of order; a bucket that
  is stamped with an older reading refills for the same seconds twice.
 */
module RateLateness {
  import opened Common
  import opened RateLimits

  // ----- late readings -------------------------------------------------------------------------------------

  lemma KnownBucket(s: State, c: Call)
    requires c.key in s.buckets && !c.sampled
    ensures Decide(s, c) == Take(s, c.key, c.now, c.rate, Capacity(c.burst))
  {
  }

  /** A call that is one token's refill late, and one on time. */
  function LateRound(c: Call): seq<Call> {
    [c.(now := 0.0), c]
  }

  function LateRounds(c: Call, n: nat): (r: seq<Call>)
    ensures |r| == 2 * n && forall i :: 0 <= i < |r| ==> r[i] == c || r[i] == c.(now := 0.0)
  {
    if n == 0 then [] else LateRounds(c, n - 1) + LateRound(c)
  }

  ghost predicate Emptied(s: State, c: Call) {
    c.key in s.buckets && s.buckets[c.key] == Bucket(0.0, c.now) && !c.sampled && c.rate > 0.0 && c.now * c.rate == 1.0
  }

  lemma LateCallIsRefused(s: State, c: Call)
    requires Emptied(s, c)
    ensures Decide(s, c.(now := 0.0)) == (s.(buckets := s.buckets[c.key := Bucket(0.0, 0.0)]), false)
  {
    KnownBucket(s, c.(now := 0.0));
    assert c.now > 0.0;
    assert Since(0.0, c.now) * c.rate == 0.0;
  }

  lemma NextCallIsGranted(s: State, c: Call)
    requires Emptied(s, c)
    ensures Decide(s.(buckets := s.buckets[c.key := Bucket(0.0, 0.0)]), c) == (s, true)
  {
    var s1 := s.(buckets := s.buckets[c.key := Bucket(0.0, 0.0)]);
    KnownBucket(s1, c);
    assert c.now > 0.0;
    assert Since(c.now, 0.0) == c.now;
    assert Refilled(s1.buckets[c.key], c.now, c.rate, Capacity(c.burst)) == 1.0;
    assert s1.buckets[c.key := Bucket(0.0, c.now)] == s.buckets;
  }

  lemma LateRoundIsGranted(s: State, c: Call)
    requires Emptied(s, c)
    ensures Run(s, LateRound(c)) == s && Granted(s, LateRound(c), c.key) == 1
  {
    LateCallIsRefused(s, c);
    NextCallIsGranted(s, c);
    RunSnoc(s, [], c.(now := 0.0), c.key);
    RunSnoc(s, [c.(now := 0.0)], c, c.key);
    assert [] + [c.(now := 0.0)] == [c.(now := 0.0)] && [c.(now := 0.0)] + [c] == LateRound(c);
  }

  lemma {:induction false} LateRoundsAreGranted(s: State, c: Call, n: nat)
    requires Emptied(s, c)
    ensures Run(s, LateRounds(c, n)) == s && Granted(s, LateRounds(c, n), c.key) == n
    decreases n
  {
    if n > 0 {
      LateRoundsAreGranted(s, c, n - 1);
      LateRoundIsGranted(s, c);
      RunConcat(s, LateRounds(c, n - 1), LateRound(c), c.key);
    }
  }

  lemma LateCallsAreGranted(c: Call, n: nat)
    requires !c.sampled && c.rate > 0.0 && c.now * c.rate == 1.0
    ensures Granted(Start(1, 0.0), BurstOf(c) + LateRounds(c, n), c.key) == c.burst + 1 + n
  {
    var s := Start(1, 0.0);
    BurstIsGranted(s, c);
    LateRoundsAreGranted(Run(s, BurstOf(c)), c, n);
    RunConcat(s, BurstOf(c), LateRounds(c, n), c.key);
  }

  lemma LateCallsFit(c: Call, n: nat)
    ensures forall i :: 0 <= i < |BurstOf(c) + LateRounds(c, n)| ==>
              var x := (BurstOf(c) + LateRounds(c, n))[i];
              x.key == c.key && x.rate == c.rate && x.burst == c.burst && (x.now == c.now || x.now == 0.0)
  {
    assert forall i :: 0 <= i < |BurstOf(c)| ==> BurstOf(c)[i] == c || BurstOf(c)[i] == c.(sampled := false);
  }

  /** Late readings break the bound for every rate and burst: when readings can be late by one
      token's refill the client gets as many calls as it likes within that time. */
  lemma LateReadingsRefill(key: ClientKey, rate: real, burst: nat, delay: real, n: nat) returns (calls: seq<Call>)
    requires rate > 0.0 && delay > 0.0 && delay * rate == 1.0
    ensures Fixed(calls, key, rate, burst) && forall i :: 0 <= i < |calls| ==> 0.0 <= calls[i].now <= delay
    ensures Granted(Start(1, 0.0), calls, key) == burst + 1 + n
  {
    var c := Call(key, delay, rate, burst, false);
    LateCallsAreGranted(c, n);
    LateCallsFit(c, n);
    calls := BurstOf(c) + LateRounds(c, n);
  }

  // ----- how much lateness the bound survives -------------------------------------------------------------

  lemma Reciprocal(rate: real) returns (delay: real)
    requires rate > 0.0
    ensures delay > 0.0 && delay * rate == 1.0
  {
    delay := 1.0 / rate;
  }

  /** A call, one that is `d` late, and one on time again. */
  function Relapse(c: Call, d: real): seq<Call> {
    [c, c.(now := c.now - d), c]
  }

  /** A bucket emptied at instant zero that misses `d` seconds of refill for one token at `c`. */
  ghost predicate Short(s: State, c: Call, d: real) {
    && c.key in s.buckets && s.buckets[c.key] == Bucket(0.0, 0.0) && !c.sampled && c.rate > 0.0
    && 0.0 < d <= c.now && c.now * c.rate + d * c.rate == 1.0
  }

  lemma ShortIsRefused(s: State, c: Call, d: real)
    requires Short(s, c, d)
    ensures Decide(s, c) == (s.(buckets := s.buckets[c.key := Bucket(c.now * c.rate, c.now)]), false)
  {
    KnownBucket(s, c);
    assert d * c.rate > 0.0;
    assert Refilled(s.buckets[c.key], c.now, c.rate, Capacity(c.burst)) == c.now * c.rate;
  }

  lemma LateIsRefused(s: State, c: Call, late: Call, tokens: real)
    requires c.key in s.buckets && s.buckets[c.key] == Bucket(tokens, c.now) && !c.sampled && tokens < 1.0
    requires late == c.(now := late.now) && late.now <= c.now
    ensures Decide(s, late) == (s.(buckets := s.buckets[c.key := Bucket(tokens, late.now)]), false)
  {
    KnownBucket(s, late);
    assert Since(late.now, c.now) * c.rate == 0.0;
  }

  lemma RestIsGranted(s: State, c: Call, tokens: real, d: real)
    requires c.key in s.buckets && s.buckets[c.key] == Bucket(tokens, c.now - d) && !c.sampled
    requires d > 0.0 && tokens + d * c.rate == 1.0
    ensures Decide(s, c).1
  {
    KnownBucket(s, c);
    assert Since(c.now, c.now - d) == d;
    assert Refilled(s.buckets[c.key], c.now, c.rate, Capacity(c.burst)) == 1.0;
  }

  lemma RelapseIsGranted(s: State, c: Call, d: real)
    requires Short(s, c, d)
    ensures Granted(s, Relapse(c, d), c.key) == 1
  {
    var late, tokens := c.(now := c.now - d), c.now * c.rate;
    assert tokens < 1.0 by { assert d * c.rate > 0.0; }
    ShortIsRefused(s, c, d);
    var s1 := s.(buckets := s.buckets[c.key := Bucket(tokens, c.now)]);
    LateIsRefused(s1, c, late, tokens);
    var s2 := s1.(buckets := s1.buckets[c.key := Bucket(tokens, late.now)]);
    RestIsGranted(s2, c, tokens, d);
    RunSnoc(s, [], c, c.key);
    RunSnoc(s, [c], late, c.key);
    RunSnoc(s, [c, late], c, c.key);
    assert [] + [c] == [c] && [c] + [late] == [c, late] && [c, late] + [c] == Relapse(c, d);
  }

  lemma RelapseAfterBurst(c: Call, d: real)
    requires !c.sampled && c.rate > 0.0 && 0.0 < d <= c.now && c.now * c.rate + d * c.rate == 1.0
    ensures Granted(Start(1, 0.0), BurstOf(c.(now := 0.0)) + Relapse(c, d), c.key) == c.burst + 2
  {
    var s, first := Start(1, 0.0), c.(now := 0.0);
    BurstIsGranted(s, first);
    RelapseIsGranted(Run(s, BurstOf(first)), c, d);
    RunConcat(s, BurstOf(first), Relapse(c, d), c.key);
  }

  lemma {:induction false} NotLateAtOnce(c: Call, n: nat)
    ensures Late(Again(c, n), c.now) == 0.0 && End(Again(c, n), c.now) == c.now
    decreases n
  {
    if n > 0 {
      NotLateAtOnce(c, n - 1);
      assert Again(c, n)[..n - 1] == Again(c, n - 1);
    }
  }

  lemma {:induction false} LateConcat(a: seq<Call>, b: seq<Call>, from: real)
    ensures Late(a + b, from) == Late(a, from) + Late(b, End(a, from))
    ensures End(a + b, from) == End(b, End(a, from))
    decreases |b|
  {
    if b == [] {
      assert a + b == a;
    } else {
      var last := |b| - 1;
      assert (a + b)[..|a + b| - 1] == a + b[..last];
      LateConcat(a, b[..last], from);
    }
  }

  lemma RelapseLate(c: Call, d: real, from: real)
    requires from <= c.now && d > 0.0
    ensures Late(Relapse(c, d), from) == d
  {
    var x := Relapse(c, d);
    assert x[..2][..1] == x[..1] && x[..1][..0] == [];
    assert Late(x[..1], from) == 0.0;
    assert Late(x[..2], from) == Late(x[..1], from) + d;
  }

  lemma BurstIsPrompt(first: Call)
    ensures Late(BurstOf(first), first.now) == 0.0 && End(BurstOf(first), first.now) == first.now
  {
    var rest := first.(sampled := false);
    NotLateAtOnce(rest, first.burst);
    LateConcat([first], Again(rest, first.burst), first.now);
    assert [first][..0] == [];
    assert Late([first], first.now) == 0.0;
  }

  lemma RelapseFits(c: Call, d: real)
    requires c.rate > 0.0 && 0.0 < d <= c.now
    ensures var calls := BurstOf(c.(now := 0.0)) + Relapse(c, d);
            && Fixed(calls, c.key, c.rate, c.burst) && Within(calls, 0.0, c.now) && Late(calls, 0.0) == d
  {
    var first := c.(now := 0.0);
    var calls := BurstOf(first) + Relapse(c, d);
    BurstIsPrompt(first);
    RelapseLate(c, d, 0.0);
    LateConcat(BurstOf(first), Relapse(c, d), 0.0);
    assert forall i :: 0 <= i < |BurstOf(first)| ==> BurstOf(first)[i] == first || BurstOf(first)[i] == first.(sampled := false);
  }

  /** Every clock reading lies in the window, in whatever order they come. */
  ghost predicate Within(calls: seq<Call>, from: real, until: real) {
    from <= until && forall i :: 0 <= i < |calls| ==> from <= calls[i].now <= until
  }

  /** Readings that come `d` seconds late in all are enough to exceed the bound, however small `d` is. */
  lemma AnyLatenessBreaks(key: ClientKey, rate: real, burst: nat, d: real) returns (calls: seq<Call>, until: real)
    requires rate > 0.0 && d > 0.0
    ensures Fixed(calls, key, rate, burst) && Within(calls, 0.0, until) && Late(calls, 0.0) <= d
    ensures !RateHolds(Start(1, 0.0), calls, key, rate, burst, 0.0, until)
  {
    var delay := Reciprocal(rate);
    var e := LeastOf(d, delay / 2.0);
    var c := Call(key, delay - e, rate, burst, false);
    Shortfall(rate, delay, e);
    RelapseAfterBurst(c, e);
    RelapseFits(c, e);
    TooManyByOne(rate, burst, delay, e);
    calls, until := BurstOf(c.(now := 0.0)) + Relapse(c, e), c.now;
  }

  lemma Shortfall(rate: real, delay: real, e: real)
    requires delay * rate == 1.0
    ensures (delay - e) * rate + e * rate == 1.0
  {
  }

  lemma TooManyByOne(rate: real, burst: nat, delay: real, e: real)
    requires rate > 0.0 && delay * rate == 1.0 && e > 0.0
    ensures !AtMost(burst + 2, rate, burst, delay - e - 0.0)
  {
    assert rate * e > 0.0;
    assert rate * (delay - e) == 1.0 - rate * e;
  }

  lemma {:induction false} LateIsNeverNegative(calls: seq<Call>, from: real)
    ensures Late(calls, from) >= 0.0
    decreases |calls|
  {
    if calls != [] { LateIsNeverNegative(calls[..|calls| - 1], from); }
  }

  lemma {:induction false} WindowIsPrompt(calls: seq<Call>, from: real, until: real)
    requires Window(calls, from, until)
    ensures Within(calls, from, until) && Late(calls, from) == 0.0
    decreases |calls|
  {
    NothingIsLate(calls, from, until);
  }

  /** The bound holds of every window of every run in which readings are at most `d` late in all. */
  ghost predicate HoldsWithin(key: ClientKey, rate: real, burst: nat, d: real) {
    forall max: nat, start, before, calls, from, until ::
      Positive(before) && Fixed(calls, key, rate, burst) && Within(calls, from, until) && Late(calls, from) <= d ==>
        RateHolds(Run(Start(max, start), before), calls, key, rate, burst, from, until)
  }

  lemma PromptIsBounded(max: nat, start: real, before: seq<Call>, calls: seq<Call>,
                        key: ClientKey, rate: real, burst: nat, from: real, until: real)
    requires rate > 0.0 && Capacity(burst) <= IDLE * rate && Positive(before)
    requires Fixed(calls, key, rate, burst) && Within(calls, from, until) && Late(calls, from) <= 0.0
    ensures RateHolds(Run(Start(max, start), before), calls, key, rate, burst, from, until)
  {
    LateReadingsCostTheirDelay(max, start, before, calls, key, rate, burst, from);
    LateIsNeverNegative(calls, from);
    AtMostGrows(Granted(Run(Start(max, start), before), calls, key), rate, burst,
                End(calls, from) - from + Late(calls, from), until - from);
  }

  /** The bound holds exactly if no reading may come late and the client's burst refills within
      the idle time. */
  lemma RateHoldsExactlyOnTime(key: ClientKey, rate: real, burst: nat, d: real)
    requires rate > 0.0 && d >= 0.0
    ensures HoldsWithin(key, rate, burst, d) <==> d == 0.0 && Capacity(burst) <= IDLE * rate
  {
    assert Positive([]) && Run(Start(1, 0.0), []) == Start(1, 0.0);
    if Capacity(burst) > IDLE * rate {
      var calls := RateBoundNeedsRefill(key, rate, burst);
      WindowIsPrompt(calls, 0.0, IDLE);
      assert !RateHolds(Run(Start(1, 0.0), []), calls, key, rate, burst, 0.0, IDLE);
    } else if d > 0.0 {
      var calls, until := AnyLatenessBreaks(key, rate, burst, d);
      assert !RateHolds(Run(Start(1, 0.0), []), calls, key, rate, burst, 0.0, until);
    } else {
      forall max: nat, start, before, calls, from, until
        | Positive(before) && Fixed(calls, key, rate, burst) && Within(calls, from, until) && Late(calls, from) <= d
        ensures RateHolds(Run(Start(max, start), before), calls, key, rate, burst, from, until)
      {
        PromptIsBounded(max, start, before, calls, key, rate, burst, from, until);
      }
    }
  }
}
