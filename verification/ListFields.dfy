/**
  Comma-separated header values as senders write them, against the list code of the gateway
  (src/gateway.rs): connection options, TE and Content-Length.
 */
module ListFields {
  import opened Common
  import opened Text
  import opened ContentLength
  import opened HopHeaders

  // ----- lists ---------------------------------------------------------------------------------------------

  /** The elements with a comma and a space between them. */
  function Listed(elements: seq<string>): string {
    if elements == [] then []
    else if |elements| == 1 then elements[0]
    else var last := |elements| - 1; Listed(elements[..last]) + [','] + ([' '] + elements[last])
  }

  /** A list element: not empty, no comma and no white space around it. */
  predicate IsElement(s: string) {
    s != [] && ',' !in s && Trimmed(s)
  }

  predicate AllElements(elements: seq<string>) {
    forall i :: 0 <= i < |elements| ==> IsElement(elements[i])
  }

  ghost predicate Trims(pieces: seq<string>, elements: seq<string>) {
    |pieces| == |elements| && forall i :: 0 <= i < |pieces| ==> Trim(pieces[i]) == elements[i]
  }

  lemma TrimsSnoc(pieces: seq<string>, elements: seq<string>, piece: string, e: string)
    requires Trims(pieces, elements) && Trim(piece) == e
    ensures Trims(pieces + [piece], elements + [e])
  {
    forall i | 0 <= i < |pieces + [piece]| ensures Trim((pieces + [piece])[i]) == (elements + [e])[i] {
      if i < |pieces| { assert Trim(pieces[i]) == elements[i]; }
    }
  }

  lemma OnePiece(e: string)
    requires IsElement(e)
    ensures Split(e, ',') == [e] && Trim(e) == e
    ensures Split([' '] + e, ',') == [[' '] + e] && Trim([' '] + e) == e
  {
    SplitNone(e, ',');
    SplitNone([' '] + e, ',');
    TrimmedIsTrim(e);
    TrimLead(' ', e);
  }

  /** Splitting a list and trimming the pieces gives the elements back. */
  lemma {:induction false} ListedPieces(elements: seq<string>)
    requires elements != [] && AllElements(elements)
    ensures Trims(Split(Listed(elements), ','), elements)
    decreases |elements|
  {
    var last := |elements| - 1;
    var before, e := elements[..last], elements[last];
    assert IsElement(e) && before + [e] == elements;
    OnePiece(e);
    if last == 0 {
      TrimsSnoc([], [], e, e);
    } else {
      ListedPieces(before);
      SplitJoin(Listed(before), [' '] + e, ',');
      TrimsSnoc(Split(Listed(before), ','), before, [' '] + e, e);
    }
  }

  // ----- connection options ----------------------------------------------------------------------------------

  lemma {:induction false} TrimmedTokens(pieces: seq<string>, elements: seq<string>)
    requires Trims(pieces, elements) && forall i :: 0 <= i < |elements| ==> elements[i] != []
    ensures Tokens(pieces) == elements
    decreases |pieces|
  {
    if pieces != [] {
      var last := |pieces| - 1;
      assert Trim(pieces[last]) == elements[last];
      TrimmedTokens(pieces[..last], elements[..last]);
      assert elements[..last] + [elements[last]] == elements;
    }
  }

  /** The tokens of a list are its elements. */
  lemma ListedTokens(elements: seq<string>)
    requires elements != [] && AllElements(elements)
    ensures ValueTokens(Listed(elements)) == elements
  {
    ListedPieces(elements);
    forall i | 0 <= i < |elements| ensures elements[i] != [] { assert IsElement(elements[i]); }
    TrimmedTokens(Split(Listed(elements), ','), elements);
  }

  /** Connection lists `a` and Proxy-Connection lists `b`. */
  predicate Lists(h: Headers, a: seq<string>, b: seq<string>, n: HopHeaders.Names) {
    && a != [] && b != [] && AllElements(a) && AllElements(b)
    && Values(h, n.connection) == [Listed(a)] && Values(h, n.proxyConnection) == [Listed(b)]
  }

  /** The options of a message are the elements of both fields, in order. */
  lemma OptionsOfLists(h: Headers, a: seq<string>, b: seq<string>, n: HopHeaders.Names)
    requires Lists(h, a, b, n)
    ensures Options(h, n) == a + b
  {
    ListedTokens(a);
    ListedTokens(b);
    GatherOne(Listed(a), ValueTokens);
    GatherOne(Listed(b), ValueTokens);
  }

  /** A field name in lower case. */
  predicate IsFieldName(s: string) {
    s != [] && forall i :: 0 <= i < |s| ==> IsTokenChar(s[i]) && !('A' <= s[i] <= 'Z')
  }

  lemma FieldNameParses(s: string)
    requires IsFieldName(s)
    ensures ParseName(s) == Some(s) && IsElement(s)
  {
    assert Lower(s) == s;
  }

  /** Which of the listed names the client may use to have fields removed. */
  predicate MayName(names: seq<string>, n: HopHeaders.Names) {
    |names| <= 10 && forall i :: 0 <= i < |names| ==> IsFieldName(names[i]) && !IsFraming(names[i], n)
  }

  lemma NamesAreFine(names: seq<string>, n: HopHeaders.Names)
    requires MayName(names, n)
    ensures AllFine(names, n)
  {
    forall i | 0 <= i < |names| ensures Fine(names[i], n) { FieldNameParses(names[i]); }
  }

  lemma NominatedAmong(h: Headers, tokens: seq<string>, k: string, n: HopHeaders.Names)
    requires Options(h, n) == tokens && forall i :: 0 <= i < |tokens| ==> IsFieldName(tokens[i])
    ensures IsNominated(h, k, n) <==> k in tokens
  {
    forall i | 0 <= i < |tokens| ensures ParseName(tokens[i]) == Some(tokens[i]) { FieldNameParses(tokens[i]); }
    if k in tokens {
      var i :| 0 <= i < |tokens| && tokens[i] == k;
      assert ParseName(Options(h, n)[i]) == Some(k);
    }
  }

  lemma IsNominatedExactly(h: Headers, a: seq<string>, b: seq<string>, k: string, n: HopHeaders.Names)
    requires Lists(h, a, b, n) && MayName(a + b, n)
    ensures IsNominated(h, k, n) <==> k in a || k in b
  {
    OptionsOfLists(h, a, b, n);
    NominatedAmong(h, a + b, k, n);
  }

  /** From the text of both fields to the stripped request: exactly the fields listed in either of
      them and the fixed ones go. */
  lemma ListedFieldsGo(down: Headers, up: Headers, a: seq<string>, b: seq<string>, k: string, n: HopHeaders.Names)
    requires Sane(n) && Lists(down, a, b, n) && MayName(a + b, n) && StripRequest(down, up, n).Ok? && k != n.te
    ensures k in StripRequest(down, up, n).value <==> k in up && k !in n.fixedRequest && k !in a && k !in b
  {
    StrippedRequest(down, up, k, n);
    IsNominatedExactly(down, a, b, k, n);
  }

  /** More than ten options, one that is no field name, or one that names a framing field, and the
      request is refused. */
  lemma BadOptionsAreRefused(down: Headers, up: Headers, a: seq<string>, b: seq<string>, n: HopHeaders.Names)
    requires Sane(n) && Lists(down, a, b, n)
    requires |a + b| > 10 || exists i :: 0 <= i < |a + b| && !Fine((a + b)[i], n)
    ensures StripRequest(down, up, n).Err?
  {
    OptionsOfLists(down, a, b, n);
    StripRequestSucceeds(down, up, n);
  }

  lemma OffersAmong(v: string, pieces: seq<string>, elements: seq<string>, n: HopHeaders.Names)
    requires Split(v, ',') == pieces && Trims(pieces, elements)
    ensures OffersTrailers([v], n) <==> exists j :: 0 <= j < |elements| && Lower(elements[j]) == n.trailers
  {
    if OffersTrailers([v], n) {
      var i, j :| 0 <= i < |[v]| && 0 <= j < |Split([v][i], ',')| && Lower(Trim(Split([v][i], ',')[j])) == n.trailers;
      assert Trim(pieces[j]) == elements[j];
    }
    if exists j :: 0 <= j < |elements| && Lower(elements[j]) == n.trailers {
      var j :| 0 <= j < |elements| && Lower(elements[j]) == n.trailers;
      assert Trim(pieces[j]) == elements[j];
      assert Lower(Trim(Split([v][0], ',')[j])) == n.trailers;
    }
  }

  /** TE offers trailers exactly if one of its elements says so, in any case. */
  lemma TrailersOffered(elements: seq<string>, n: HopHeaders.Names)
    requires elements != [] && AllElements(elements)
    ensures OffersTrailers([Listed(elements)], n) <==> exists j :: 0 <= j < |elements| && Lower(elements[j]) == n.trailers
  {
    ListedPieces(elements);
    OffersAmong(Listed(elements), Split(Listed(elements), ','), elements, n);
  }

  // ----- lengths ---------------------------------------------------------------------------------------------------

  lemma DigitsAreElement(s: string)
    requires s != [] && Digits(s)
    ensures IsElement(s) && Readable(s)
  {
  }

  lemma {:induction false} ListedReadable(elements: seq<string>)
    requires forall i :: 0 <= i < |elements| ==> Readable(elements[i])
    ensures Readable(Listed(elements))
    decreases |elements|
  {
    if |elements| > 1 {
      var last := |elements| - 1;
      ListedReadable(elements[..last]);
      var (x, y) := (Listed(elements[..last]), [' '] + elements[last]);
      forall i | 0 <= i < |x + [','] + y| ensures var c := (x + [','] + y)[i]; c == '\t' || ' ' <= c < 127 as char {
        if i > |x| + 1 { assert (x + [','] + y)[i] == elements[last][i - |x| - 2]; }
      }
    }
  }

  /** Lengths as decimal numbers. */
  function Decimals(lengths: seq<nat>): (r: seq<string>)
    ensures |r| == |lengths| && forall i :: 0 <= i < |lengths| ==> r[i] == Decimal(lengths[i])
  {
    seq(|lengths|, i requires 0 <= i < |lengths| => Decimal(lengths[i]))
  }

  lemma DecimalPieces(lengths: seq<nat>)
    requires lengths != [] && forall i :: 0 <= i < |lengths| ==> lengths[i] < USIZE_LIMIT
    ensures Readable(Listed(Decimals(lengths)))
    ensures var pieces := Split(Listed(Decimals(lengths)), ',');
            |pieces| == |lengths| && forall i :: 0 <= i < |lengths| ==> ParseLength(pieces[i]) == Some(lengths[i])
  {
    var elements := Decimals(lengths);
    forall i | 0 <= i < |elements| ensures IsElement(elements[i]) && Readable(elements[i]) { DigitsAreElement(elements[i]); }
    ListedReadable(elements);
    ListedPieces(elements);
    var pieces := Split(Listed(elements), ',');
    forall i | 0 <= i < |lengths| ensures ParseLength(pieces[i]) == Some(lengths[i]) { assert Trim(pieces[i]) == elements[i]; }
  }

  /** A field that lists lengths is accepted exactly if they are all the same, as that length. */
  lemma ListedLengths(lengths: seq<nat>, x: nat)
    requires lengths != [] && forall i :: 0 <= i < |lengths| ==> lengths[i] < USIZE_LIMIT
    ensures ValidLength([Listed(Decimals(lengths))]) == Ok(Some(x)) <==> forall i :: 0 <= i < |lengths| ==> lengths[i] == x
  {
    var v := Listed(Decimals(lengths));
    DecimalPieces(lengths);
    ValidLengthMeans([v], x);
    assert [v][0] == v;
    var pieces := Split(v, ',');
    if Agree([v], x) {
      assert AllSay(Split([v][0], ','), x);
      forall i | 0 <= i < |lengths| ensures lengths[i] == x { assert ParseLength(pieces[i]) == Some(x); }
    }
  }
}
