/**
  Building the upstream HTTP/3 header block: the buffer-reusing form (src/h3_wire.rs) against
  the plain one (src/upstream_h3.rs).  Header bytes are characters.
 */
module H3Wire {
  import opened Common
  import opened Text

  datatype Pair = Pair(name: string, value: string)

  /** `headers` lists the fields in the order the header map yields them. */
  datatype Request = Request(verb: string, uriAuthority: Option<string>, path: Option<string>, headers: seq<Pair>)

  datatype Error = MissingHost

  predicate IsLower(s: string) {
    forall i :: 0 <= i < |s| ==> !('A' <= s[i] <= 'Z')
  }

  lemma LowerFixes(s: string)
    ensures IsLower(Lower(s)) && (Lower(s) == s <==> IsLower(s))
  {
    forall i | 0 <= i < |s| ensures Lower(s)[i] == s[i] <==> !('A' <= s[i] <= 'Z') {}
    if Lower(s) == s {
      forall i | 0 <= i < |s| ensures !('A' <= s[i] <= 'Z') { assert Lower(s)[i] == s[i]; }
    }
  }

  /** The field names that are treated specially, in lower case. */
  datatype Names = Names(host: string, te: string, trailers: string, hopByHop: set<string>)

  const NAMES := Names("host", "te", "trailers",
                       {"connection", "transfer-encoding", "upgrade", "keep-alive", "proxy-connection"})

  // ----- the plain form ------------------------------------------------------------------------------------

  function FirstNamed(headers: seq<Pair>, name: string): Option<string> {
    if headers == [] then None
    else if headers[0].name == name then Some(headers[0].value)
    else FirstNamed(headers[1..], name)
  }

  function Authority(req: Request, n: Names): Option<string> {
    var host := FirstNamed(req.headers, n.host);
    if host.Some? && Readable(host.value) then host else req.uriAuthority
  }

  function Path(req: Request): string {
    if req.path.Some? then req.path.value else "/"
  }

  predicate Forwarded(p: Pair, n: Names) {
    p.name != n.host && p.name !in n.hopByHop && (p.name != n.te || Lower(p.value) == n.trailers)
  }

  function EncodeRegular(headers: seq<Pair>, n: Names): seq<Pair> {
    if headers == [] then []
    else (if Forwarded(headers[0], n) then [headers[0]] else []) + EncodeRegular(headers[1..], n)
  }

  function Pseudo(req: Request, authority: string): seq<Pair> {
    [Pair(":method", req.verb), Pair(":scheme", "https"), Pair(":authority", authority), Pair(":path", Path(req))]
  }

  /** `encode_pingora_request` */
  function Encode(req: Request, n: Names): Result<seq<Pair>, Error> {
    match Authority(req, n)
    case None => Err(MissingHost)
    case Some(authority) => Ok(Pseudo(req, authority) + EncodeRegular(req.headers, n))
  }

  // ----- the reusing form ----------------------------------------------------------------------------------

  predicate IsPseudo(name: string) {
    name != [] && name[0] == ':'
  }

  /** Comparisons here ignore the case of the captured name. */
  predicate Skips(p: Pair, n: Names) {
    var name := Lower(p.name);
    name == n.host || name in n.hopByHop || (name == n.te && Lower(p.value) != n.trailers)
  }

  function ReuseKey(name: string): string {
    if IsLower(name) then name else Lower(name)
  }

  /** The captured pairs that may be reused, by lower-case name; a later one replaces an
      earlier one. */
  function Reusable(wire: seq<Pair>, n: Names): map<string, Pair> {
    if wire == [] then map[]
    else
      var last := |wire| - 1;
      var before, p := Reusable(wire[..last], n), wire[last];
      if IsPseudo(p.name) || Skips(p, n) then before else before[ReuseKey(p.name) := p]
  }

  /** Regular fields, each from the captured block when an unchanged one is left there. */
  function Emit(headers: seq<Pair>, reusable: map<string, Pair>, n: Names): seq<Pair>
    decreases |headers|
  {
    if headers == [] then []
    else
      var p := headers[0];
      if Skips(p, n) then Emit(headers[1..], reusable, n)
      else if p.name in reusable then
        var existing := reusable[p.name];
        [if existing.value == p.value then existing else p] + Emit(headers[1..], reusable - {p.name}, n)
      else [p] + Emit(headers[1..], reusable, n)
  }

  function Finalize(wire: seq<Pair>, req: Request, n: Names): seq<Pair> {
    var authority := match Authority(req, n) case None => "" case Some(a) => a;
    Pseudo(req, authority) + Emit(req.headers, Reusable(wire, n), n)
  }

  method Drain(captured: seq<Pair>, n: Names) returns (reusable: map<string, Pair>)
    ensures reusable == Reusable(captured, n)
  {
    reusable := map[];
    for i := 0 to |captured|
      invariant reusable == Reusable(captured[..i], n)
    {
      assert captured[..i + 1][..i] == captured[..i];
      var p := captured[i];
      if !(IsPseudo(p.name) || Skips(p, n)) { reusable := reusable[ReuseKey(p.name) := p]; }
    }
    assert captured[..|captured|] == captured;
  }

  method Rebuild(headers: seq<Pair>, captured: map<string, Pair>, n: Names) returns (wire: seq<Pair>)
    ensures wire == Emit(headers, captured, n)
  {
    var reusable := captured;
    wire := [];
    for i := 0 to |headers|
      invariant wire + Emit(headers[i..], reusable, n) == Emit(headers, captured, n)
    {
      var p := headers[i];
      assert headers[i..][1..] == headers[i + 1..];
      if !Skips(p, n) {
        var reused := p;
        if p.name in reusable {
          if reusable[p.name].value == p.value { reused := reusable[p.name]; }
          reusable := reusable - {p.name};
        }
        ghost var rest := Emit(headers[i + 1..], reusable, n);
        assert wire + ([reused] + rest) == (wire + [reused]) + rest;
        wire := wire + [reused];
      }
    }
    assert headers[|headers|..] == [];
    assert wire + [] == wire;
  }

  /** `finalize_upstream_wire_pairs`: the captured block is drained and rebuilt. */
  method FinalizeUpstreamWirePairs(captured: seq<Pair>, req: Request, n: Names) returns (wire: seq<Pair>)
    ensures wire == Finalize(captured, req, n)
  {
    var authority := match Authority(req, n) case None => "" case Some(a) => a;
    var reusable := Drain(captured, n);
    var regular := Rebuild(req.headers, reusable, n);
    return Pseudo(req, authority) + regular;
  }

  // ----- they agree -------------------------------------------------------------------------------------------

  /** Field names of a request are lower case, as the header map keeps them. */
  ghost predicate LowerNames(pairs: seq<Pair>) {
    forall i :: 0 <= i < |pairs| ==> IsLower(pairs[i].name)
  }

  function LowerPair(p: Pair): Pair {
    Pair(Lower(p.name), p.value)
  }

  function LowerAll(pairs: seq<Pair>): seq<Pair> {
    if pairs == [] then [] else [LowerPair(pairs[0])] + LowerAll(pairs[1..])
  }

  lemma SameFilter(p: Pair, n: Names)
    requires IsLower(p.name)
    ensures Forwarded(p, n) <==> !Skips(p, n)
  {
    LowerFixes(p.name);
  }

  ghost predicate Keyed(reusable: map<string, Pair>) {
    forall k :: k in reusable ==> Lower(reusable[k].name) == k
  }

  lemma {:induction false} ReusableKeyed(wire: seq<Pair>, n: Names)
    ensures Keyed(Reusable(wire, n))
    decreases |wire|
  {
    if wire != [] {
      var last := |wire| - 1;
      ReusableKeyed(wire[..last], n);
      LowerFixes(wire[last].name);
    }
  }

  /** Up to the case of reused names, the fields come out as in the plain form: same fields,
      same order, duplicates included. */
  lemma {:induction false} EmitEncodes(headers: seq<Pair>, reusable: map<string, Pair>, n: Names)
    requires LowerNames(headers) && Keyed(reusable)
    ensures LowerAll(Emit(headers, reusable, n)) == EncodeRegular(headers, n)
    decreases |headers|
  {
    if headers != [] {
      var p, rest := headers[0], headers[1..];
      SameFilter(p, n);
      LowerFixes(p.name);
      if Skips(p, n) {
        EmitEncodes(rest, reusable, n);
      } else if p.name in reusable {
        EmitEncodes(rest, reusable - {p.name}, n);
        var q := if reusable[p.name].value == p.value then reusable[p.name] else p;
        assert Emit(headers, reusable, n)[1..] == Emit(rest, reusable - {p.name}, n);
        assert LowerPair(q) == p;
      } else {
        EmitEncodes(rest, reusable, n);
        assert Emit(headers, reusable, n)[1..] == Emit(rest, reusable, n);
        assert LowerPair(p) == p;
      }
    }
  }

  /** For every captured block and every request with an authority, the reusing form gives the
      plain form's list up to the case of reused names. */
  lemma FinalizeIsEncodeIgnoringCase(wire: seq<Pair>, req: Request)
    requires LowerNames(req.headers) && Authority(req, NAMES).Some?
    ensures Encode(req, NAMES).Ok?
    ensures var (a, b) := (Finalize(wire, req, NAMES), Encode(req, NAMES).value);
            |a| >= 4 && |b| >= 4 && a[..4] == b[..4] && LowerAll(a[4..]) == b[4..]
  {
    var n := NAMES;
    ReusableKeyed(wire, n);
    EmitEncodes(req.headers, Reusable(wire, n), n);
    var head := Pseudo(req, Authority(req, n).value);
    var (a, b) := (Emit(req.headers, Reusable(wire, n), n), EncodeRegular(req.headers, n));
    assert (head + a)[4..] == a && (head + b)[4..] == b && (head + a)[..4] == head && (head + b)[..4] == head;
  }

  // ----- exactly when they are equal ------------------------------------------------------------------------------

  predicate MayReuse(p: Pair, n: Names) {
    !IsPseudo(p.name) && !Skips(p, n)
  }

  /** The last captured pair of its name, case ignored, that may be reused. */
  ghost predicate LastOfName(wire: seq<Pair>, i: int, n: Names) {
    && 0 <= i < |wire| && MayReuse(wire[i], n)
    && forall k :: i < k < |wire| && MayReuse(wire[k], n) ==> Lower(wire[k].name) != Lower(wire[i].name)
  }

  /** The first forwarded field of its name. */
  ghost predicate FirstOfName(headers: seq<Pair>, j: int, n: Names) {
    && 0 <= j < |headers| && Forwarded(headers[j], n)
    && forall k :: 0 <= k < j && Forwarded(headers[k], n) ==> headers[k].name != headers[j].name
  }

  /** The captured pair at `i` stands in for the field at `j`. */
  ghost predicate StandsIn(wire: seq<Pair>, i: int, headers: seq<Pair>, j: int, n: Names) {
    LastOfName(wire, i, n) && FirstOfName(headers, j, n) && LowerPair(wire[i]) == headers[j]
  }

  lemma {:induction false} ReusableIsLast(wire: seq<Pair>, n: Names, i: int)
    ensures LastOfName(wire, i, n) ==>
              Lower(wire[i].name) in Reusable(wire, n) && Reusable(wire, n)[Lower(wire[i].name)] == wire[i]
    decreases |wire|
  {
    if LastOfName(wire, i, n) {
      var last := |wire| - 1;
      LowerFixes(wire[last].name);
      if i < last {
        assert LastOfName(wire[..last], i, n);
        ReusableIsLast(wire[..last], n, i);
      }
    }
  }

  lemma {:induction false} ReusableHasLast(wire: seq<Pair>, n: Names, key: string) returns (i: int)
    requires key in Reusable(wire, n)
    ensures LastOfName(wire, i, n) && Reusable(wire, n)[key] == wire[i] && Lower(wire[i].name) == key
    decreases |wire|
  {
    var last := |wire| - 1;
    LowerFixes(wire[last].name);
    if MayReuse(wire[last], n) && Lower(wire[last].name) == key {
      i := last;
    } else {
      i := ReusableHasLast(wire[..last], n, key);
    }
  }

  /** If the field at `j` is taken from `reusable`, it is taken from a pair with a lower-case name. */
  ghost predicate TakenLower(headers: seq<Pair>, reusable: map<string, Pair>, j: int, n: Names) {
    FirstOfName(headers, j, n) && headers[j].name in reusable && reusable[headers[j].name].value == headers[j].value
    ==> IsLower(reusable[headers[j].name].name)
  }

  lemma FirstOfNameCons(headers: seq<Pair>, j: int, n: Names)
    requires headers != []
    ensures FirstOfName(headers, j, n) <==>
              || (j == 0 && Forwarded(headers[0], n))
              || (FirstOfName(headers[1..], j - 1, n) && (Forwarded(headers[0], n) ==> headers[0].name != headers[j].name))
  {
    var rest := headers[1..];
    if FirstOfName(headers, j, n) && j > 0 {
      forall k | 0 <= k < j - 1 && Forwarded(rest[k], n) ensures rest[k].name != rest[j - 1].name {
        assert rest[k] == headers[k + 1];
      }
    }
    if j > 0 && FirstOfName(rest, j - 1, n) && (Forwarded(headers[0], n) ==> headers[0].name != headers[j].name) {
      forall k | 0 <= k < j && Forwarded(headers[k], n) ensures headers[k].name != headers[j].name {
        if k > 0 { assert headers[k] == rest[k - 1]; }
      }
    }
  }

  ghost predicate AllTakenLower(headers: seq<Pair>, reusable: map<string, Pair>, n: Names) {
    forall j :: TakenLower(headers, reusable, j, n)
  }

  lemma AllTakenLowerCons(headers: seq<Pair>, reusable: map<string, Pair>, n: Names)
    requires headers != []
    ensures var p, rest := headers[0], headers[1..];
            AllTakenLower(headers, reusable, n) <==>
              if !Forwarded(p, n) then AllTakenLower(rest, reusable, n)
              else TakenLower(headers, reusable, 0, n) && AllTakenLower(rest, reusable - {p.name}, n)
  {
    var p, rest := headers[0], headers[1..];
    var left := if Forwarded(p, n) then reusable - {p.name} else reusable;
    forall j ensures TakenLower(rest, left, j, n) <==> j < 0 || TakenLower(headers, reusable, j + 1, n) {
      FirstOfNameCons(headers, j + 1, n);
    }
    FirstOfNameCons(headers, 0, n);
    if AllTakenLower(rest, left, n) && TakenLower(headers, reusable, 0, n) {
      forall j ensures TakenLower(headers, reusable, j, n) { assert TakenLower(rest, left, j - 1, n); }
    }
  }

  lemma ConsEqual(p: Pair, x: seq<Pair>, q: Pair, y: seq<Pair>)
    ensures [p] + x == [q] + y <==> p == q && x == y
  {
    if [p] + x == [q] + y {
      assert ([p] + x)[0] == p && ([q] + y)[0] == q && ([p] + x)[1..] == x && ([q] + y)[1..] == y;
    }
  }

  lemma {:induction false} EmitEqual(headers: seq<Pair>, reusable: map<string, Pair>, n: Names)
    requires LowerNames(headers) && Keyed(reusable)
    ensures Emit(headers, reusable, n) == EncodeRegular(headers, n) <==> AllTakenLower(headers, reusable, n)
    decreases |headers|
  {
    if headers != [] {
      var p, rest := headers[0], headers[1..];
      SameFilter(p, n);
      AllTakenLowerCons(headers, reusable, n);
      if Skips(p, n) {
        EmitEqual(rest, reusable, n);
        assert [] + EncodeRegular(rest, n) == EncodeRegular(rest, n);
      } else {
        var left := reusable - {p.name};
        assert p.name !in reusable ==> left == reusable;
        EmitEqual(rest, left, n);
        var q := if p.name in reusable && reusable[p.name].value == p.value then reusable[p.name] else p;
        assert Emit(headers, reusable, n) == [q] + Emit(rest, left, n);
        ConsEqual(q, Emit(rest, left, n), p, EncodeRegular(rest, n));
        FirstOfNameCons(headers, 0, n);
        LowerFixes(q.name);
      }
    }
  }

  /** The names of captured pairs that stand in for a field are in lower case. */
  ghost predicate StandInsLower(wire: seq<Pair>, headers: seq<Pair>, n: Names) {
    forall i, j :: StandsIn(wire, i, headers, j, n) ==> IsLower(wire[i].name)
  }

  lemma TakenIsStandIn(wire: seq<Pair>, headers: seq<Pair>, n: Names)
    ensures AllTakenLower(headers, Reusable(wire, n), n) <==> StandInsLower(wire, headers, n)
  {
    var reusable := Reusable(wire, n);
    if AllTakenLower(headers, reusable, n) {
      forall i, j | StandsIn(wire, i, headers, j, n) ensures IsLower(wire[i].name) {
        ReusableIsLast(wire, n, i);
        assert TakenLower(headers, reusable, j, n);
      }
    }
    if StandInsLower(wire, headers, n) {
      forall j ensures TakenLower(headers, reusable, j, n) {
        if FirstOfName(headers, j, n) && headers[j].name in reusable && reusable[headers[j].name].value == headers[j].value {
          var i := ReusableHasLast(wire, n, headers[j].name);
          assert StandsIn(wire, i, headers, j, n);
        }
      }
    }
  }

  lemma FinalizeEncodes(wire: seq<Pair>, req: Request, n: Names)
    requires LowerNames(req.headers)
    ensures Encode(req, n) == Ok(Finalize(wire, req, n)) <==>
              Authority(req, n).Some? && StandInsLower(wire, req.headers, n)
  {
    ReusableKeyed(wire, n);
    EmitEqual(req.headers, Reusable(wire, n), n);
    TakenIsStandIn(wire, req.headers, n);
    if Authority(req, n).Some? {
      var head := Pseudo(req, Authority(req, n).value);
      var (a, b) := (Emit(req.headers, Reusable(wire, n), n), EncodeRegular(req.headers, n));
      assert (head + a)[4..] == a && (head + b)[4..] == b;
    }
  }

  /** For every captured block and every request: the reusing form gives exactly the plain form's
      list if and only if there is an authority and every captured pair that stands in for a
      field (the last of its name for the first of its name, with the same value) has a
      lower-case name. */
  lemma FinalizeIsEncodeExactly(wire: seq<Pair>, req: Request)
    requires LowerNames(req.headers)
    ensures Encode(req, NAMES) == Ok(Finalize(wire, req, NAMES)) <==>
              Authority(req, NAMES).Some? && StandInsLower(wire, req.headers, NAMES)
  {
    FinalizeEncodes(wire, req, NAMES);
  }

  /** With lower-case captured names, as HTTP/3 delivers them, the two are equal. */
  lemma FinalizeIsEncode(wire: seq<Pair>, req: Request)
    requires LowerNames(wire) && LowerNames(req.headers) && Authority(req, NAMES).Some?
    ensures Encode(req, NAMES) == Ok(Finalize(wire, req, NAMES))
  {
    FinalizeIsEncodeExactly(wire, req);
  }

  // ----- what the plain form says -------------------------------------------------------------------------------

  /** What a receiver reads from a header block. */
  datatype Reading = Reading(verb: Option<string>, scheme: Option<string>, authority: Option<string>, path: Option<string>,
                             fields: seq<Pair>)

  function Fields(pairs: seq<Pair>): seq<Pair> {
    if pairs == [] then [] else (if IsPseudo(pairs[0].name) then [] else [pairs[0]]) + Fields(pairs[1..])
  }

  function Decode(pairs: seq<Pair>): Reading {
    Reading(FirstNamed(pairs, ":method"), FirstNamed(pairs, ":scheme"), FirstNamed(pairs, ":authority"),
            FirstNamed(pairs, ":path"), Fields(pairs))
  }

  /** No field of a request is named like a pseudo-header. */
  ghost predicate Regular(headers: seq<Pair>) {
    forall i :: 0 <= i < |headers| ==> !IsPseudo(headers[i].name)
  }

  lemma {:induction false} EncodeRegularFields(headers: seq<Pair>, n: Names)
    requires Regular(headers)
    ensures Fields(EncodeRegular(headers, n)) == EncodeRegular(headers, n)
    decreases |headers|
  {
    if headers != [] {
      EncodeRegularFields(headers[1..], n);
      var rest := EncodeRegular(headers[1..], n);
      if Forwarded(headers[0], n) { assert ([headers[0]] + rest)[1..] == rest; } else { assert [] + rest == rest; }
    }
  }

  lemma FieldsCons(p: Pair, rest: seq<Pair>)
    ensures Fields([p] + rest) == (if IsPseudo(p.name) then [] else [p]) + Fields(rest)
    ensures FirstNamed([p] + rest, p.name) == Some(p.value)
    ensures forall name :: name != p.name ==> FirstNamed([p] + rest, name) == FirstNamed(rest, name)
  {
    assert ([p] + rest)[1..] == rest;
  }

  lemma DecodePseudo(verb: string, authority: string, path: string, rest: seq<Pair>)
    ensures var pairs := [Pair(":method", verb), Pair(":scheme", "https"), Pair(":authority", authority), Pair(":path", path)] + rest;
            Decode(pairs) == Reading(Some(verb), Some("https"), Some(authority), Some(path), Fields(rest))
  {
    var (a, b, c, d) := (Pair(":method", verb), Pair(":scheme", "https"), Pair(":authority", authority), Pair(":path", path));
    assert a.name[1] == 'm' && b.name[1] == 's' && c.name[1] == 'a' && d.name[1] == 'p';
    FieldsCons(d, rest);
    FieldsCons(c, [d] + rest);
    FieldsCons(b, [c] + ([d] + rest));
    FieldsCons(a, [b] + ([c] + ([d] + rest)));
    assert [a, b, c, d] + rest == [a] + ([b] + ([c] + ([d] + rest)));
  }

  /** Decoding an encoded request gives back its method, its authority (a readable Host field, or
      else the one of its URI), its path and its forwarded fields in order. */
  lemma DecodeEncoded(req: Request)
    requires Regular(req.headers) && Encode(req, NAMES).Ok?
    ensures var host := FirstNamed(req.headers, "host");
            Decode(Encode(req, NAMES).value)
            == Reading(Some(req.verb), Some("https"), if host.Some? && Readable(host.value) then host else req.uriAuthority,
                       Some(if req.path.Some? then req.path.value else "/"), EncodeRegular(req.headers, NAMES))
  {
    EncodeRegularFields(req.headers, NAMES);
    DecodePseudo(req.verb, Authority(req, NAMES).value, Path(req), EncodeRegular(req.headers, NAMES));
  }

  /** The forwarded fields of a request are those of its parts, and a single field is forwarded
      unless it is Host, a hop-by-hop field or a TE that is not "trailers". */
  lemma {:induction false} ForwardedParts(a: seq<Pair>, b: seq<Pair>, n: Names)
    ensures EncodeRegular(a + b, n) == EncodeRegular(a, n) + EncodeRegular(b, n)
    decreases |a|
  {
    if a == [] {
      assert a + b == b;
    } else {
      var first := if Forwarded(a[0], n) then [a[0]] else [];
      ForwardedParts(a[1..], b, n);
      assert (a + b)[0] == a[0] && (a + b)[1..] == a[1..] + b;
      assert first + (EncodeRegular(a[1..], n) + EncodeRegular(b, n)) == (first + EncodeRegular(a[1..], n)) + EncodeRegular(b, n);
    }
  }

  lemma ForwardedOne(p: Pair)
    ensures EncodeRegular([p], NAMES)
            == if p.name == "host" || p.name == "connection" || p.name == "transfer-encoding" || p.name == "upgrade"
                  || p.name == "keep-alive" || p.name == "proxy-connection" || (p.name == "te" && Lower(p.value) != "trailers")
               then [] else [p]
  {
    assert [p][1..] == [];
    assert EncodeRegular([], NAMES) == [];
  }
}
