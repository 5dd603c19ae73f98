/**
  Removal of hop-by-hop fields from proxied requests and responses (src/gateway.rs; section
  7.6.1 of RFC 9110).  A header map gives the values of each field by lower-case name.
 */
module HopHeaders {
  import opened Common
  import opened Text
  import opened ContentLength

  const MAX_CONNECTION_NOMINATIONS := 10

  datatype Names = Names(
    connection: string,
    proxyConnection: string,
    te: string,
    trailers: string,
    contentLength: string,
    transferEncoding: string,
    host: string,
    upgrade: string,
    fixedRequest: set<string>,
    fixedResponse: set<string>)

  const NAMES := Names(
    "connection", "proxy-connection", "te", "trailers", "content-length", "transfer-encoding", "host", "upgrade",
    {"connection", "keep-alive", "proxy-connection", "proxy-authenticate", "proxy-authorization", "te", "trailer",
     "upgrade"},
    {"connection", "keep-alive", "proxy-connection", "proxy-authenticate", "proxy-authorization", "te", "trailer",
     "upgrade", "server", "x-powered-by", "alt-svc", "strict-transport-security", "x-content-type-options",
     "x-frame-options", "referrer-policy"})

  datatype Failure = TooMany | BadOption | NamesFraming | Framing(cause: ContentLength.Error) | MissingUpgrade

  // ----- connection options ------------------------------------------------------------------------------------

  predicate IsTokenChar(c: char) {
    || 'a' <= c <= 'z' || 'A' <= c <= 'Z' || '0' <= c <= '9'
    || c in {'!', '#', '$', '%', '&', '\'', '*', '+', '-', '.', '^', '_', '`', '|', '~'}
  }

  /** A field name, in lower case, if the token can be one. */
  function ParseName(token: string): Option<string> {
    if token != [] && forall i :: 0 <= i < |token| ==> IsTokenChar(token[i]) then Some(Lower(token)) else None
  }

  /** The non-empty list elements. */
  function Tokens(texts: seq<string>): seq<string> {
    if texts == [] then []
    else
      var last := |texts| - 1;
      Tokens(texts[..last]) + if Trim(texts[last]) == [] then [] else [Trim(texts[last])]
  }

  function ValueTokens(value: string): seq<string> {
    Tokens(Split(value, ','))
  }

  function OptionTokens(values: seq<string>): seq<string> {
    Gather(values, ValueTokens)
  }

  function Options(h: Headers, n: Names): seq<string> {
    OptionTokens(Values(h, n.connection)) + OptionTokens(Values(h, n.proxyConnection))
  }

  predicate IsFraming(name: string, n: Names) {
    name == n.contentLength || name == n.transferEncoding || name == n.host
  }

  type Nominated = Result<seq<string>, Failure>

  /** One more option of a request. */
  function NominateOne(names: seq<string>, token: string, n: Names): Nominated {
    if |names| + 1 > MAX_CONNECTION_NOMINATIONS then Err(TooMany)
    else
      match ParseName(token)
      case None => Err(BadOption)
      case Some(name) => if IsFraming(name, n) then Err(NamesFraming) else Ok(names + [name])
  }

  /** One more option of a response: the same, checked in another order. */
  function NominateResponseOne(names: seq<string>, token: string, n: Names): Nominated {
    match ParseName(token)
    case None => Err(BadOption)
    case Some(name) =>
      if IsFraming(name, n) then Err(NamesFraming)
      else if |names| == MAX_CONNECTION_NOMINATIONS then Err(TooMany)
      else Ok(names + [name])
  }

  /** The options after those already named; `response` picks the order of the checks. */
  function NominateFrom(names: seq<string>, tokens: seq<string>, n: Names, response: bool): Nominated {
    if tokens == [] then Ok(names)
    else
      var last := |tokens| - 1;
      match NominateFrom(names, tokens[..last], n, response)
      case Err(e) => Err(e)
      case Ok(more) => if response then NominateResponseOne(more, tokens[last], n) else NominateOne(more, tokens[last], n)
  }

  function Nominate(tokens: seq<string>, n: Names): Nominated {
    NominateFrom([], tokens, n, false)
  }

  function NominateResponse(tokens: seq<string>, n: Names): Nominated {
    NominateFrom([], tokens, n, true)
  }

  /** The option can be honoured. */
  predicate Fine(token: string, n: Names) {
    ParseName(token).Some? && !IsFraming(ParseName(token).value, n)
  }

  ghost predicate AllFine(tokens: seq<string>, n: Names) {
    |tokens| <= MAX_CONNECTION_NOMINATIONS && forall i :: 0 <= i < |tokens| ==> Fine(tokens[i], n)
  }

  ghost predicate Named(tokens: seq<string>, names: seq<string>) {
    |names| == |tokens| && forall i :: 0 <= i < |tokens| ==> ParseName(tokens[i]) == Some(names[i])
  }

  /** Options are accepted exactly when there are at most ten, each is a field name and none
      names a framing field; request and response agree on that, and on the names. */
  lemma {:induction false} NominateMeans(tokens: seq<string>, n: Names)
    ensures Nominate(tokens, n).Ok? <==> AllFine(tokens, n)
    ensures NominateResponse(tokens, n).Ok? <==> AllFine(tokens, n)
    ensures AllFine(tokens, n) ==> Named(tokens, Nominate(tokens, n).value)
    ensures AllFine(tokens, n) ==> NominateResponse(tokens, n) == Nominate(tokens, n)
    decreases |tokens|
  {
    if tokens != [] {
      var last := |tokens| - 1;
      NominateMeans(tokens[..last], n);
      assert AllFine(tokens, n) <==> AllFine(tokens[..last], n) && |tokens| <= MAX_CONNECTION_NOMINATIONS && Fine(tokens[last], n) by {
        assert tokens == tokens[..last] + [tokens[last]];
      }
    }
  }

  // ----- stripping -------------------------------------------------------------------------------------------------

  function AsSet(names: seq<string>): set<string> {
    set k | k in names
  }

  /** Some list element of some TE field is "trailers". */
  predicate OffersTrailers(values: seq<string>, n: Names) {
    exists i, j :: 0 <= i < |values| && 0 <= j < |Split(values[i], ',')| && Lower(Trim(Split(values[i], ',')[j])) == n.trailers
  }

  function StripRequest(down: Headers, up: Headers, n: Names): Result<Headers, Failure> {
    match Nominate(Options(down, n), n)
    case Err(e) => Err(e)
    case Ok(names) =>
      var rest := up - AsSet(names) - n.fixedRequest;
      var kept := if n.te in up && OffersTrailers(up[n.te], n) then rest[n.te := [n.trailers]] else rest;
      match Normalize(kept, n.contentLength, n.transferEncoding)
      case Err(e) => Err(Framing(e))
      case Ok(r) => Ok(r)
  }

  function StripResponse(h: Headers, forwardsUpgrade: bool, n: Names): Result<Headers, Failure> {
    match NominateResponse(Options(h, n), n)
    case Err(e) => Err(e)
    case Ok(names) =>
      match Normalize(h - AsSet(names) - n.fixedResponse, n.contentLength, n.transferEncoding)
      case Err(e) => Err(Framing(e))
      case Ok(r) =>
        if !forwardsUpgrade then Ok(r)
        else if Values(h, n.upgrade) == [] then Err(MissingUpgrade)
        else Ok(r[n.upgrade := [Values(h, n.upgrade)[0]]][n.connection := [n.upgrade]])
  }

  // ----- what is left --------------------------------------------------------------------------------------------

  /** The framing fields are not hop-by-hop; TE is. */
  ghost predicate Sane(n: Names) {
    && n.te in n.fixedRequest && n.fixedRequest <= n.fixedResponse
    && n.upgrade in n.fixedResponse && n.connection in n.fixedResponse && n.upgrade != n.connection
    && n.contentLength !in n.fixedResponse && n.transferEncoding !in n.fixedResponse && n.host !in n.fixedResponse
  }

  ghost predicate IsNominated(h: Headers, name: string, n: Names) {
    exists i :: 0 <= i < |Options(h, n)| && ParseName(Options(h, n)[i]) == Some(name)
  }

  lemma NominatedSet(h: Headers, n: Names, k: string)
    requires AllFine(Options(h, n), n)
    ensures Nominate(Options(h, n), n).Ok?
    ensures k in AsSet(Nominate(Options(h, n), n).value) <==> IsNominated(h, k, n)
    ensures IsNominated(h, k, n) ==> !IsFraming(k, n)
  {
    NominateMeans(Options(h, n), n);
    var tokens := Options(h, n);
    var names := Nominate(tokens, n).value;
    if k in AsSet(names) {
      var i :| 0 <= i < |names| && names[i] == k;
      assert ParseName(tokens[i]) == Some(k);
    }
    if IsNominated(h, k, n) {
      var i :| 0 <= i < |tokens| && ParseName(tokens[i]) == Some(k);
      assert names[i] == k && Fine(tokens[i], n);
    }
  }

  /** What stays of a message when hop-by-hop fields go. */
  ghost predicate Stays(h: Headers, nominator: Headers, fixed: set<string>, k: string, n: Names) {
    k in h && k !in fixed && !IsNominated(nominator, k, n)
  }

  /** A stripped request has exactly the fields that are neither fixed hop-by-hop fields nor
      nominated by the client, with their values, plus "TE: trailers" when that was offered;
      framing fields stay and the length is the same. */
  lemma StrippedRequest(down: Headers, up: Headers, k: string, n: Names)
    requires Sane(n) && StripRequest(down, up, n).Ok?
    ensures var r := StripRequest(down, up, n).value;
            && (k != n.te ==> (k in r <==> Stays(up, down, n.fixedRequest, k, n)))
            && (k != n.te && k != n.contentLength && k in r ==> r[k] == up[k])
            && (n.te in r <==> n.te in up && OffersTrailers(up[n.te], n))
            && (n.te in r ==> r[n.te] == [n.trailers])
            && ValidLength(Values(r, n.contentLength)) == ValidLength(Values(up, n.contentLength))
            && (IsFraming(k, n) ==> (k in r <==> k in up))
  {
    var tokens := Options(down, n);
    NominateMeans(tokens, n);
    NominatedSet(down, n, k);
    NominatedSet(down, n, n.contentLength);
    var rest := up - AsSet(Nominate(tokens, n).value) - n.fixedRequest;
    var kept := if n.te in up && OffersTrailers(up[n.te], n) then rest[n.te := [n.trailers]] else rest;
    NormalizeIsExact(kept, n.contentLength, n.transferEncoding);
  }

  /** Stripping fails exactly on options that cannot be honoured or on bad framing. */
  lemma StripRequestSucceeds(down: Headers, up: Headers, n: Names)
    requires Sane(n)
    ensures StripRequest(down, up, n).Ok? <==>
              && AllFine(Options(down, n), n) && ValidLength(Values(up, n.contentLength)).Ok?
              && !(n.transferEncoding in up && ValidLength(Values(up, n.contentLength)).value.Some?)
  {
    var tokens := Options(down, n);
    NominateMeans(tokens, n);
    if AllFine(tokens, n) {
      NominatedSet(down, n, n.contentLength);
      NominatedSet(down, n, n.transferEncoding);
      var rest := up - AsSet(Nominate(tokens, n).value) - n.fixedRequest;
      var kept := if n.te in up && OffersTrailers(up[n.te], n) then rest[n.te := [n.trailers]] else rest;
      NormalizeIsExact(kept, n.contentLength, n.transferEncoding);
    }
  }

  /** The same for a response, which may be given back its Upgrade. */
  lemma StrippedResponse(h: Headers, forwardsUpgrade: bool, k: string, n: Names)
    requires Sane(n) && StripResponse(h, forwardsUpgrade, n).Ok?
    ensures var r := StripResponse(h, forwardsUpgrade, n).value;
            && (!(forwardsUpgrade && k in {n.upgrade, n.connection}) ==> (k in r <==> Stays(h, h, n.fixedResponse, k, n)))
            && (k !in {n.upgrade, n.connection, n.contentLength} && k in r ==> r[k] == h[k])
            && (forwardsUpgrade ==> Values(h, n.upgrade) != [] && Values(r, n.upgrade) == [Values(h, n.upgrade)[0]]
                                    && Values(r, n.connection) == [n.upgrade])
            && ValidLength(Values(r, n.contentLength)) == ValidLength(Values(h, n.contentLength))
            && (IsFraming(k, n) ==> (k in r <==> k in h))
  {
    var tokens := Options(h, n);
    NominateMeans(tokens, n);
    NominatedSet(h, n, k);
    NominatedSet(h, n, n.contentLength);
    NormalizeIsExact(h - AsSet(Nominate(tokens, n).value) - n.fixedResponse, n.contentLength, n.transferEncoding);
  }

  /** Stripping a response fails exactly on options that cannot be honoured, on bad framing, or
      when its Upgrade is to be forwarded and it has none. */
  lemma StripResponseSucceeds(h: Headers, forwardsUpgrade: bool, n: Names)
    requires Sane(n)
    ensures StripResponse(h, forwardsUpgrade, n).Ok? <==>
              && AllFine(Options(h, n), n) && ValidLength(Values(h, n.contentLength)).Ok?
              && !(n.transferEncoding in h && ValidLength(Values(h, n.contentLength)).value.Some?)
              && (forwardsUpgrade ==> Values(h, n.upgrade) != [])
  {
    var tokens := Options(h, n);
    NominateMeans(tokens, n);
    if AllFine(tokens, n) {
      NominatedSet(h, n, n.contentLength);
      NominatedSet(h, n, n.transferEncoding);
      NormalizeIsExact(h - AsSet(Nominate(tokens, n).value) - n.fixedResponse, n.contentLength, n.transferEncoding);
    }
  }

  // ----- the names ------------------------------------------------------------------------------------------------

  lemma NamesAreSane()
    ensures Sane(NAMES)
  {
    assert |NAMES.contentLength| == 14 && |NAMES.transferEncoding| == 17 && |NAMES.host| == 4;
    assert |NAMES.upgrade| == 7 && |NAMES.connection| == 10;
    forall k | k in NAMES.fixedResponse ensures |k| != 14 && |k| != 17 && |k| != 4 {}
  }

  lemma FixedSizes()
    ensures |NAMES.fixedRequest| <= 8
  {
  }

  lemma FixedResponseSize()
    ensures |NAMES.fixedResponse| <= 15
  {
  }

  /** The fixed fields found among a map's keys fit the eight and fifteen slots kept for them. */
  lemma FixedFieldsFit(h: Headers)
    ensures |h.Keys * NAMES.fixedRequest| <= 8 && |h.Keys * NAMES.fixedResponse| <= 15
  {
    FixedSizes();
    FixedResponseSize();
    var n := NAMES;
    Smaller(h.Keys * n.fixedRequest, n.fixedRequest);
    Smaller(h.Keys * n.fixedResponse, n.fixedResponse);
  }

  // ----- the program's loops ----------------------------------------------------------------------------------------

  lemma {:induction false} NominateConcat(names: seq<string>, a: seq<string>, b: seq<string>, n: Names, response: bool)
    ensures NominateFrom(names, a + b, n, response)
            == match NominateFrom(names, a, n, response)
               case Err(e) => Err(e)
               case Ok(more) => NominateFrom(more, b, n, response)
    decreases |b|
  {
    if b == [] {
      assert a + b == a;
    } else {
      var last := |b| - 1;
      assert (a + b)[..|a + b| - 1] == a + b[..last];
      NominateConcat(names, a, b[..last], n, response);
    }
  }

  lemma {:induction false} TokensConcat(a: seq<string>, b: seq<string>)
    ensures Tokens(a + b) == Tokens(a) + Tokens(b)
    decreases |b|
  {
    if b == [] {
      assert a + b == a;
    } else {
      var last := |b| - 1;
      assert (a + b)[..|a + b| - 1] == a + b[..last];
      TokensConcat(a, b[..last]);
    }
  }

  /** An option that fails makes the rest of the list irrelevant. */
  lemma FailsEarly(names: seq<string>, texts: seq<string>, i: nat, n: Names, response: bool)
    requires i <= |texts| && NominateFrom(names, Tokens(texts[..i]), n, response).Err?
    ensures NominateFrom(names, Tokens(texts), n, response) == NominateFrom(names, Tokens(texts[..i]), n, response)
  {
    assert texts == texts[..i] + texts[i..];
    TokensConcat(texts[..i], texts[i..]);
    NominateConcat(names, Tokens(texts[..i]), Tokens(texts[i..]), n, response);
  }

  lemma OneMoreText(names: seq<string>, texts: seq<string>, i: nat, n: Names, response: bool)
    requires i < |texts| && NominateFrom(names, Tokens(texts[..i]), n, response).Ok?
    ensures var more := NominateFrom(names, Tokens(texts[..i]), n, response).value;
            NominateFrom(names, Tokens(texts[..i + 1]), n, response)
            == if Trim(texts[i]) == [] then Ok(more)
               else if response then NominateResponseOne(more, Trim(texts[i]), n)
               else NominateOne(more, Trim(texts[i]), n)
  {
    assert texts[..i + 1][..i] == texts[..i];
    if Trim(texts[i]) != [] {
      var tokens := Tokens(texts[..i + 1]);
      assert tokens[..|tokens| - 1] == Tokens(texts[..i]);
    } else {
      assert Tokens(texts[..i]) + [] == Tokens(texts[..i]);
    }
  }

  lemma RemoveOneMore(base: Headers, names: seq<string>, name: string)
    ensures base - AsSet(names) - {name} == base - AsSet(names + [name])
  {
    assert AsSet(names + [name]) == AsSet(names) + {name};
  }

  datatype Progress = Progress(headers: Headers, count: nat)

  /** One Connection value of a request: each option's field leaves the upstream header at once. */
  method RemoveOptions(value: string, start: Progress, n: Names, ghost names: seq<string>, ghost base: Headers)
    returns (r: Result<Progress, Failure>)
    requires start == Progress(base - AsSet(names), |names|)
    ensures match NominateFrom(names, ValueTokens(value), n, false)
            case Err(e) => r == Err(e)
            case Ok(more) => r == Ok(Progress(base - AsSet(more), |more|))
  {
    var texts := Split(value, ',');
    var up, nominations := start.headers, start.count;
    ghost var more := names;
    for i := 0 to |texts|
      invariant NominateFrom(names, Tokens(texts[..i]), n, false) == Ok(more)
      invariant up == base - AsSet(more) && nominations == |more|
    {
      OneMoreText(names, texts, i, n, false);
      var token := Trim(texts[i]);
      if token != [] {
        nominations := nominations + 1;
        var name := ParseName(token);
        if nominations > MAX_CONNECTION_NOMINATIONS || name.None? || IsFraming(name.value, n) {
          FailsEarly(names, texts, i + 1, n, false);
          return Err(if nominations > MAX_CONNECTION_NOMINATIONS then TooMany
                     else if name.None? then BadOption
                     else NamesFraming);
        }
        RemoveOneMore(base, more, name.value);
        up := up - {name.value};
        more := more + [name.value];
      }
    }
    assert texts[..|texts|] == texts;
    return Ok(Progress(up, nominations));
  }

  method RemoveAllOptions(values: seq<string>, start: Progress, n: Names, ghost names: seq<string>, ghost base: Headers)
    returns (r: Result<Progress, Failure>)
    requires start == Progress(base - AsSet(names), |names|)
    ensures match NominateFrom(names, OptionTokens(values), n, false)
            case Err(e) => r == Err(e)
            case Ok(more) => r == Ok(Progress(base - AsSet(more), |more|))
  {
    var p := start;
    ghost var more := names;
    for i := 0 to |values|
      invariant NominateFrom(names, OptionTokens(values[..i]), n, false) == Ok(more)
      invariant p == Progress(base - AsSet(more), |more|)
    {
      assert values[..i + 1][..i] == values[..i];
      NominateConcat(names, OptionTokens(values[..i]), ValueTokens(values[i]), n, false);
      ghost var next := NominateFrom(more, ValueTokens(values[i]), n, false);
      r := RemoveOptions(values[i], p, n, more, base);
      if r.Err? {
        OptionsFailEarly(names, values, i + 1, n, false);
        return;
      }
      p := r.value;
      more := next.value;
    }
    assert values[..|values|] == values;
    return Ok(p);
  }

  lemma OptionsFailEarly(names: seq<string>, values: seq<string>, i: nat, n: Names, response: bool)
    requires i <= |values| && NominateFrom(names, OptionTokens(values[..i]), n, response).Err?
    ensures NominateFrom(names, OptionTokens(values), n, response)
            == NominateFrom(names, OptionTokens(values[..i]), n, response)
  {
    assert values == values[..i] + values[i..];
    GatherConcat(values[..i], values[i..], ValueTokens);
    NominateConcat(names, OptionTokens(values[..i]), OptionTokens(values[i..]), n, response);
  }

  /** `strip_request_hop_headers` */
  method StripRequestHopHeaders(down: Headers, upstream: Headers, n: Names) returns (r: Result<Headers, Failure>)
    ensures r == StripRequest(down, upstream, n)
  {
    var fixed := set k | k in upstream && k in n.fixedRequest;
    var keepTrailers := n.te in upstream && OffersTrailers(upstream[n.te], n);
    var up := upstream;
    ghost var names: seq<string> := [];
    assert upstream - AsSet([]) == upstream;
    NominateConcat([], OptionTokens(Values(down, n.connection)), OptionTokens(Values(down, n.proxyConnection)), n, false);
    var first := RemoveAllOptions(Values(down, n.connection), Progress(upstream, 0), n, [], upstream);
    if first.Err? { return Err(first.error); }
    names := NominateFrom([], OptionTokens(Values(down, n.connection)), n, false).value;
    var second := RemoveAllOptions(Values(down, n.proxyConnection), first.value, n, names, upstream);
    if second.Err? { return Err(second.error); }
    names := Nominate(Options(down, n), n).value;
    up := second.value.headers - fixed;
    assert up == upstream - AsSet(names) - n.fixedRequest;
    if keepTrailers { up := up[n.te := [n.trailers]]; }
    var normal := NormalizeContentLength(up, n.contentLength, n.transferEncoding);
    if normal.Err? { return Err(Framing(normal.error)); }
    return Ok(normal.value);
  }

  /** One Connection value of a response. */
  method ValueOptionNames(value: string, start: seq<string>, n: Names) returns (r: Nominated)
    ensures r == NominateFrom(start, ValueTokens(value), n, true)
  {
    var texts := Split(value, ',');
    var names := start;
    for i := 0 to |texts|
      invariant NominateFrom(start, Tokens(texts[..i]), n, true) == Ok(names)
    {
      OneMoreText(start, texts, i, n, true);
      var token := Trim(texts[i]);
      if token != [] {
        r := NominateResponseOne(names, token, n);
        if r.Err? {
          FailsEarly(start, texts, i + 1, n, true);
          return;
        }
        names := r.value;
      }
    }
    assert texts[..|texts|] == texts;
    return Ok(names);
  }

  method FieldOptionNames(values: seq<string>, start: seq<string>, n: Names) returns (r: Nominated)
    ensures r == NominateFrom(start, OptionTokens(values), n, true)
  {
    var names := start;
    for i := 0 to |values|
      invariant NominateFrom(start, OptionTokens(values[..i]), n, true) == Ok(names)
    {
      assert values[..i + 1][..i] == values[..i];
      NominateConcat(start, OptionTokens(values[..i]), ValueTokens(values[i]), n, true);
      r := ValueOptionNames(values[i], names, n);
      if r.Err? {
        OptionsFailEarly(start, values, i + 1, n, true);
        return;
      }
      names := r.value;
    }
    assert values[..|values|] == values;
    return Ok(names);
  }

  /** `connection_option_names` */
  method ConnectionOptionNames(h: Headers, n: Names) returns (r: Nominated)
    ensures r == NominateResponse(Options(h, n), n)
  {
    NominateConcat([], OptionTokens(Values(h, n.connection)), OptionTokens(Values(h, n.proxyConnection)), n, true);
    r := FieldOptionNames(Values(h, n.connection), [], n);
    if r.Err? { return; }
    r := FieldOptionNames(Values(h, n.proxyConnection), r.value, n);
  }

  method RemoveNames(h: Headers, names: seq<string>) returns (response: Headers)
    ensures response == h - AsSet(names)
  {
    response := h;
    for i := 0 to |names|
      invariant response == h - AsSet(names[..i])
    {
      RemoveOneMore(h, names[..i], names[i]);
      assert names[..i] + [names[i]] == names[..i + 1];
      response := response - {names[i]};
    }
    assert names[..|names|] == names;
  }

  /** `strip_response_hop_headers` */
  method StripResponseHopHeaders(h: Headers, forwardsUpgrade: bool, n: Names) returns (r: Result<Headers, Failure>)
    ensures r == StripResponse(h, forwardsUpgrade, n)
  {
    var upgrade := Values(h, n.upgrade);
    var options := ConnectionOptionNames(h, n);
    if options.Err? { return Err(options.error); }
    var fixed := set k | k in h && k in n.fixedResponse;
    var response := RemoveNames(h, options.value);
    response := response - fixed;
    assert response == h - AsSet(options.value) - n.fixedResponse;
    var normal := NormalizeContentLength(response, n.contentLength, n.transferEncoding);
    if normal.Err? { return Err(Framing(normal.error)); }
    if !forwardsUpgrade { return Ok(normal.value); }
    if upgrade == [] { return Err(MissingUpgrade); }
    return Ok(normal.value[n.upgrade := [upgrade[0]]][n.connection := [n.upgrade]]);
  }
}
