/**
  Validation and normalization of Content-Length (src/gateway.rs).
 */
module ContentLength {
  import opened Common
  import opened Text

  const USIZE_LIMIT := 0x1_0000_0000_0000_0000

  /** Field values by lower-case field name. */
  type Headers = map<string, seq<string>>

  function Values(h: Headers, name: string): seq<string> {
    if name in h then h[name] else []
  }

  /** A length as one list element writes it: digits only, within the machine word. */
  function ParseLength(text: string): Option<nat> {
    var token := Trim(text);
    if token == [] || !Digits(token) || Number(token) >= USIZE_LIMIT then None else Some(Number(token))
  }

  type Scan = Result<Option<nat>, ()>

  function ScanTexts(texts: seq<string>, expected: Option<nat>): Scan
    decreases |texts|
  {
    if texts == [] then Ok(expected)
    else
      match ParseLength(texts[0])
      case None => Err(())
      case Some(length) =>
        if expected.Some? && expected.value != length then Err(()) else ScanTexts(texts[1..], Some(length))
  }

  function ScanValues(values: seq<string>, expected: Option<nat>): Scan
    decreases |values|
  {
    if values == [] then Ok(expected)
    else if !Readable(values[0]) then Err(())
    else
      match ScanTexts(Split(values[0], ','), expected)
      case Err(e) => Err(e)
      case Ok(length) => ScanValues(values[1..], length)
  }

  /** `validated_content_length` */
  function ValidLength(values: seq<string>): Scan {
    ScanValues(values, None)
  }

  method ValidatedContentLength(values: seq<string>) returns (r: Scan)
    ensures r == ValidLength(values)
  {
    var expected: Option<nat> := None;
    for i := 0 to |values|
      invariant ScanValues(values[i..], expected) == ValidLength(values)
    {
      assert values[i..][1..] == values[i + 1..];
      if !Readable(values[i]) { return Err(()); }
      var texts := Split(values[i], ',');
      ghost var before := expected;
      for j := 0 to |texts|
        invariant ScanTexts(texts[j..], expected) == ScanTexts(texts, before)
      {
        assert texts[j..][1..] == texts[j + 1..];
        var length := ParseLength(texts[j]);
        if length.None? { return Err(()); }
        if expected.Some? && expected.value != length.value { return Err(()); }
        expected := length;
      }
    }
    return Ok(expected);
  }

  // ----- what validation means ---------------------------------------------------------------------------------

  ghost predicate AllSay(texts: seq<string>, x: nat) {
    forall j :: 0 <= j < |texts| ==> ParseLength(texts[j]) == Some(x)
  }

  /** Every element of every field is the number `x`. */
  ghost predicate Agree(values: seq<string>, x: nat) {
    forall i :: 0 <= i < |values| ==> Readable(values[i]) && AllSay(Split(values[i], ','), x)
  }

  lemma {:induction false} TextsMeaning(texts: seq<string>, expected: Option<nat>, x: nat)
    ensures ScanTexts(texts, expected) == Ok(Some(x)) <==>
              AllSay(texts, x) && (expected == Some(x) || (expected.None? && texts != []))
    ensures ScanTexts(texts, expected) == Ok(None) <==> texts == [] && expected == None
    decreases |texts|
  {
    if texts != [] {
      var rest := texts[1..];
      assert AllSay(texts, x) <==> ParseLength(texts[0]) == Some(x) && AllSay(rest, x) by {
        if ParseLength(texts[0]) == Some(x) && AllSay(rest, x) {
          forall j | 0 <= j < |texts| ensures ParseLength(texts[j]) == Some(x) {
            if j > 0 { assert texts[j] == rest[j - 1]; }
          }
        }
        if AllSay(texts, x) {
          forall j | 0 <= j < |rest| ensures ParseLength(rest[j]) == Some(x) { assert rest[j] == texts[j + 1]; }
        }
      }
      if ParseLength(texts[0]).Some? { TextsMeaning(rest, ParseLength(texts[0]), x); }
    }
  }

  lemma {:induction false} ValuesMeaning(values: seq<string>, expected: Option<nat>, x: nat)
    ensures ScanValues(values, expected) == Ok(Some(x)) <==>
              Agree(values, x) && (expected == Some(x) || (expected.None? && values != []))
    ensures ScanValues(values, expected) == Ok(None) <==> values == [] && expected == None
    decreases |values|
  {
    if values != [] {
      var rest, texts := values[1..], Split(values[0], ',');
      TextsMeaning(texts, expected, x);
      if Readable(values[0]) {
        var first := ScanTexts(texts, expected);
        if first.Ok? {
          ValuesMeaning(rest, first.value, x);
          if first.value.Some? { TextsMeaning(texts, expected, first.value.value); }
        }
      }
    }
  }

  /** A length is accepted exactly when there is a field and every element of every field is
      that number; without a field there is none; everything else is an error. */
  lemma ValidLengthMeans(values: seq<string>, x: nat)
    ensures ValidLength(values) == Ok(Some(x)) <==> values != [] && Agree(values, x)
    ensures ValidLength(values) == Ok(None) <==> values == []
  {
    ValuesMeaning(values, None, x);
  }

  // ----- normalization ------------------------------------------------------------------------------------------

  function Decimal(v: nat): (s: string)
    ensures s != [] && Digits(s) && Number(s) == v
  {
    var digit := [('0' as int + v % 10) as char];
    if v < 10 then
      assert digit[..0] == [];
      digit
    else
      var s := Decimal(v / 10) + digit;
      assert s[..|s| - 1] == Decimal(v / 10);
      s
  }

  datatype Error = BadLength | BothFramings

  /** Exactly one field, digits only. */
  predicate Canonical(values: seq<string>) {
    |values| == 1 && values[0] != [] && Digits(values[0])
  }

  function Normalize(h: Headers, lengthName: string, transferName: string): Result<Headers, Error> {
    match ValidLength(Values(h, lengthName))
    case Err(_) => Err(BadLength)
    case Ok(length) =>
      if transferName in h && length.Some? then Err(BothFramings)
      else if length.None? || Canonical(Values(h, lengthName)) then Ok(h)
      else Ok(h[lengthName := [Decimal(length.value)]])
  }

  method NormalizeContentLength(h: Headers, lengthName: string, transferName: string) returns (r: Result<Headers, Error>)
    ensures r == Normalize(h, lengthName, transferName)
  {
    var length := ValidatedContentLength(Values(h, lengthName));
    if length.Err? { return Err(BadLength); }
    if transferName in h && length.value.Some? { return Err(BothFramings); }
    if length.value.None? || Canonical(Values(h, lengthName)) { return Ok(h); }
    return Ok(h[lengthName := [Decimal(length.value.value)]]);
  }

  lemma OneFieldLength(s: string)
    requires s != [] && Digits(s) && Number(s) < USIZE_LIMIT
    ensures ValidLength([s]) == Ok(Some(Number(s)))
  {
    SplitNone(s, ',');
    assert AllSay([s], Number(s));
    ValidLengthMeans([s], Number(s));
  }

  lemma LengthsFit(values: seq<string>, x: nat)
    requires ValidLength(values) == Ok(Some(x))
    ensures x < USIZE_LIMIT
  {
    ValidLengthMeans(values, x);
    assert ParseLength(Split(values[0], ',')[0]) == Some(x);
  }

  lemma CanonicalLength(values: seq<string>, x: nat)
    requires ValidLength(values) == Ok(Some(x)) && Canonical(values)
    ensures Number(values[0]) == x
  {
    ValidLengthMeans(values, x);
    SplitNone(values[0], ',');
    assert ParseLength(Split(values[0], ',')[0]) == Some(x);
  }

  /** Normalization keeps the length and every other field; it leaves one field of digits that
      say the length.  It fails exactly on a bad length or on both framings together. */
  lemma NormalizeIsExact(h: Headers, lengthName: string, transferName: string)
    ensures var was := ValidLength(Values(h, lengthName));
            Normalize(h, lengthName, transferName).Ok? <==> was.Ok? && !(transferName in h && was.value.Some?)
    ensures Normalize(h, lengthName, transferName).Ok? ==>
              var r := Normalize(h, lengthName, transferName).value;
              && ValidLength(Values(r, lengthName)) == ValidLength(Values(h, lengthName))
              && r.Keys == h.Keys && (forall k :: k in h && k != lengthName ==> r[k] == h[k])
              && (ValidLength(Values(h, lengthName)).value.Some? ==>
                    && Canonical(Values(r, lengthName))
                    && Number(Values(r, lengthName)[0]) == ValidLength(Values(h, lengthName)).value.value)
  {
    var values := Values(h, lengthName);
    var was := ValidLength(values);
    if was.Ok? && was.value.Some? && transferName !in h {
      var x := was.value.value;
      ValidLengthMeans(values, x);
      LengthsFit(values, x);
      if Canonical(values) {
        CanonicalLength(values, x);
      } else {
        OneFieldLength(Decimal(x));
      }
    }
  }

  /** A second normalization changes nothing. */
  lemma NormalizeIsIdempotent(h: Headers, lengthName: string, transferName: string)
    requires Normalize(h, lengthName, transferName).Ok?
    ensures var r := Normalize(h, lengthName, transferName).value;
            Normalize(r, lengthName, transferName) == Ok(r)
  {
    NormalizeIsExact(h, lengthName, transferName);
  }

  function Pow10(n: nat): nat {
    if n == 0 then 1 else 10 * Pow10(n - 1)
  }

  lemma {:induction false} DecimalLength(v: nat, n: nat)
    requires n >= 1 && v < Pow10(n)
    ensures |Decimal(v)| <= n
    decreases n
  {
    if v >= 10 {
      assert n >= 2 by { assert Pow10(1) == 10; }
      DecimalLength(v / 10, n - 1);
    }
  }

  /** Any accepted length fits the 39-character buffer it is written to. */
  lemma DecimalFits(v: nat)
    requires v < USIZE_LIMIT
    ensures |Decimal(v)| <= 20
  {
    assert Pow10(5) == 100_000;
    assert Pow10(10) == 100_000 * Pow10(5);
    assert Pow10(15) == 100_000 * Pow10(10);
    assert Pow10(20) == 100_000 * Pow10(15);
    DecimalLength(v, 20);
  }
}
