/** ASCII text helpers of the header code.  Characters stand for bytes. */
module Text {
  import opened Common

  /** A header value that can be read as text: visible ASCII and tabs. */
  predicate Readable(v: string) {
    forall i :: 0 <= i < |v| ==> v[i] == '\t' || ' ' <= v[i] < 127 as char
  }

  predicate IsSpace(c: char) {
    c == ' ' || c == '\t'
  }

  function TrimLeft(s: string): string {
    if s != [] && IsSpace(s[0]) then TrimLeft(s[1..]) else s
  }

  function TrimRight(s: string): string {
    if s != [] && IsSpace(s[|s| - 1]) then TrimRight(s[..|s| - 1]) else s
  }

  function Trim(s: string): string {
    TrimRight(TrimLeft(s))
  }

  /** A text without white space around it. */
  predicate Trimmed(s: string) {
    s == [] || (!IsSpace(s[0]) && !IsSpace(s[|s| - 1]))
  }

  lemma TrimmedIsTrim(s: string)
    requires Trimmed(s)
    ensures Trim(s) == s
  {
  }

  lemma TrimLead(c: char, s: string)
    requires IsSpace(c)
    ensures Trim([c] + s) == Trim(s)
  {
    assert ([c] + s)[1..] == s;
  }

  lemma {:induction false} TrimLeftTrail(c: char, s: string)
    requires IsSpace(c)
    ensures TrimLeft(s + [c]) == if TrimLeft(s) == [] then [] else TrimLeft(s) + [c]
    decreases |s|
  {
    if s == [] {
      assert s + [c] == [c] && [c][1..] == [];
    } else if IsSpace(s[0]) {
      assert (s + [c])[1..] == s[1..] + [c];
      TrimLeftTrail(c, s[1..]);
    }
  }

  lemma TrimTrail(c: char, s: string)
    requires IsSpace(c)
    ensures Trim(s + [c]) == Trim(s)
  {
    TrimLeftTrail(c, s);
    var t := TrimLeft(s);
    if t != [] { assert (t + [c])[..|t + [c]| - 1] == t; }
  }

  /** One more character at the front of the first piece. */
  function Grow(c: char, pieces: seq<string>): (r: seq<string>)
    requires pieces != []
    ensures r != []
  {
    [[c] + pieces[0]] + pieces[1..]
  }

  /** The pieces between occurrences of `c`. */
  function Split(s: string, c: char): (r: seq<string>)
    ensures r != []
  {
    if s == [] then [[]]
    else if s[0] == c then [[]] + Split(s[1..], c)
    else Grow(s[0], Split(s[1..], c))
  }

  lemma GrowConcat(c: char, x: seq<string>, y: seq<string>)
    requires x != []
    ensures Grow(c, x + y) == Grow(c, x) + y
  {
    assert (x + y)[1..] == x[1..] + y;
  }

  lemma {:induction false} SplitJoin(a: string, b: string, c: char)
    ensures Split(a + [c] + b, c) == Split(a, c) + Split(b, c)
    decreases |a|
  {
    var s := a + [c] + b;
    if a == [] {
      assert s[0] == c && s[1..] == b;
    } else {
      assert s[0] == a[0] && s[1..] == a[1..] + [c] + b;
      SplitJoin(a[1..], b, c);
      if a[0] == c {
        assert [[]] + (Split(a[1..], c) + Split(b, c)) == ([[]] + Split(a[1..], c)) + Split(b, c);
      } else {
        GrowConcat(a[0], Split(a[1..], c), Split(b, c));
      }
    }
  }

  lemma {:induction false} SplitNone(s: string, c: char)
    requires c !in s
    ensures Split(s, c) == [s]
    decreases |s|
  {
    if s != [] {
      SplitNone(s[1..], c);
      assert [s[0]] + s[1..] == s;
    }
  }

  function IndexOf(s: string, c: char): (i: nat)
    ensures i <= |s| && (i < |s| ==> s[i] == c)
  {
    if s == [] || s[0] == c then 0 else 1 + IndexOf(s[1..], c)
  }

  function LowerChar(c: char): char {
    if 'A' <= c <= 'Z' then c - 'A' + 'a' else c
  }

  function Lower(s: string): (r: string)
    ensures |r| == |s| && forall i :: 0 <= i < |s| ==> r[i] == LowerChar(s[i])
  {
    if s == [] then [] else [LowerChar(s[0])] + Lower(s[1..])
  }

  predicate Digits(s: string) {
    forall i :: 0 <= i < |s| ==> '0' <= s[i] <= '9'
  }

  function Number(s: string): nat
    requires Digits(s)
  {
    if s == [] then 0 else Number(s[..|s| - 1]) * 10 + (s[|s| - 1] - '0') as nat
  }

  lemma NumberBound(s: string)
    requires Digits(s) && |s| <= 3
    ensures |s| == 1 ==> Number(s) < 10
    ensures |s| == 2 ==> Number(s) < 100
    ensures Number(s) < 1000
  {
    if |s| >= 1 { assert Number(s[..|s| - 1]) == if |s| == 1 then 0 else Number(s[..|s| - 1]); }
    if |s| == 1 { assert s[..0] == []; }
    if |s| == 2 { NumberBound(s[..1]); }
    if |s| == 3 { NumberBound(s[..2]); }
  }

  // ----- gathering from a list of field values -------------------------------------------------------

  /** What `f` makes of each value, one after the other. */
  function Gather<T>(values: seq<string>, f: string -> seq<T>): seq<T> {
    if values == [] then []
    else var last := |values| - 1; Gather(values[..last], f) + f(values[last])
  }

  lemma {:induction false} GatherConcat<T>(x: seq<string>, y: seq<string>, f: string -> seq<T>)
    ensures Gather(x + y, f) == Gather(x, f) + Gather(y, f)
    decreases |y|
  {
    if y == [] {
      assert x + y == x;
    } else {
      var last := |y| - 1;
      assert (x + y)[..|x + y| - 1] == x + y[..last];
      GatherConcat(x, y[..last], f);
    }
  }

  lemma GatherThree<T>(x: seq<string>, y: seq<string>, z: seq<string>, f: string -> seq<T>)
    ensures Gather(x + y + z, f) == Gather(x, f) + Gather(y, f) + Gather(z, f)
  {
    GatherConcat(x, y, f);
    GatherConcat(x + y, z, f);
  }

  lemma GatherOne<T>(a: string, f: string -> seq<T>)
    ensures Gather([a], f) == f(a)
  {
    assert [a][..0] == [];
    assert Gather([], f) == [];
  }

  lemma GatherTwo<T>(a: string, b: string, f: string -> seq<T>)
    ensures Gather([a, b], f) == f(a) + f(b)
  {
    assert [a, b][..1] == [a];
    GatherOne(a, f);
  }

  lemma {:induction false} GatherEach<T>(values: seq<string>, results: seq<T>, f: string -> seq<T>)
    requires |values| == |results| && forall i :: 0 <= i < |values| ==> f(values[i]) == [results[i]]
    ensures Gather(values, f) == results
    decreases |values|
  {
    if values != [] {
      var last := |values| - 1;
      GatherEach(values[..last], results[..last], f);
      assert results == results[..last] + [results[last]];
    }
  }

  lemma GatherJoined<T>(before: seq<string>, a: string, b: string, ab: string, after: seq<string>, f: string -> seq<T>)
    requires f(ab) == f(a) + f(b)
    ensures Gather(before + [a, b] + after, f) == Gather(before + [ab] + after, f)
  {
    GatherThree(before, [a, b], after, f);
    GatherThree(before, [ab], after, f);
    GatherTwo(a, b, f);
    GatherOne(ab, f);
  }

  lemma GatherMiddle<T>(x: seq<string>, v: string, z: seq<string>, f: string -> seq<T>)
    ensures multiset(Gather(x + [v] + z, f)) == multiset(Gather(x + z, f)) + multiset(f(v))
  {
    GatherThree(x, [v], z, f);
    GatherOne(v, f);
    GatherConcat(x, z, f);
  }

  lemma MoveOne<T>(x: seq<T>, v: T, y: seq<T>, before: seq<T>, after: seq<T>)
    requires multiset(x + [v]) == multiset(y) && y == before + [v] + after
    ensures multiset(x) == multiset(before + after)
  {
    assert multiset(x + [v]) == multiset(x) + multiset{v};
    assert multiset(y) == multiset(before) + multiset{v} + multiset(after);
    assert multiset(x) == multiset(x + [v]) - multiset{v};
  }

  /** Reordering the values reorders what is gathered. */
  lemma {:induction false} SameValuesSameGather<T>(x: seq<string>, y: seq<string>, f: string -> seq<T>)
    requires multiset(x) == multiset(y)
    ensures multiset(Gather(x, f)) == multiset(Gather(y, f))
    decreases |x|
  {
    if x == [] {
      assert |multiset(y)| == 0;
      assert y == [];
    } else {
      var last := |x| - 1;
      var v := x[last];
      assert x == x[..last] + [v];
      assert v in multiset(y);
      var i :| 0 <= i < |y| && y[i] == v;
      MoveOne(x[..last], v, y, y[..i], y[i + 1..]);
      SameValuesSameGather(x[..last], y[..i] + y[i + 1..], f);
      GatherMiddle(y[..i], v, y[i + 1..], f);
    }
  }
}
