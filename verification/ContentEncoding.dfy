/**
  Accept-Encoding negotiation (src/content_encoding.rs; sections 12.4.2 and 12.5.3 of RFC
  9110).  Qualities are thousandths.  Readable header text holds no white space other than
  spaces and tabs.
 */
module ContentEncoding {
  import opened Common
  import opened Text

  // ----- preferences ---------------------------------------------------------------------------------------

  datatype Coding = Gzip | Brotli | Zstd | Plain | Wildcard

  datatype Item = Item(coding: Coding, quality: nat)

  datatype Preferences = Preferences(
    gzip: Option<nat>,
    brotli: Option<nat>,
    zstd: Option<nat>,
    identity: Option<nat>,
    wildcard: Option<nat>)

  const Nothing := Preferences(None, None, None, None, None)

  function Slot(p: Preferences, c: Coding): Option<nat> {
    match c
    case Gzip => p.gzip
    case Brotli => p.brotli
    case Zstd => p.zstd
    case Plain => p.identity
    case Wildcard => p.wildcard
  }

  function Higher(slot: Option<nat>, quality: nat): Option<nat> {
    if slot.None? || slot.value < quality then Some(quality) else slot
  }

  function Record(p: Preferences, item: Item): Preferences {
    match item.coding
    case Gzip => p.(gzip := Higher(p.gzip, item.quality))
    case Brotli => p.(brotli := Higher(p.brotli, item.quality))
    case Zstd => p.(zstd := Higher(p.zstd, item.quality))
    case Plain => p.(identity := Higher(p.identity, item.quality))
    case Wildcard => p.(wildcard := Higher(p.wildcard, item.quality))
  }

  function Tally(items: seq<Item>): Preferences {
    if items == [] then Nothing
    else var last := |items| - 1; Record(Tally(items[..last]), items[last])
  }

  /** A slot holds the highest quality given to its coding. */
  lemma {:induction false} TallyIsHighest(items: seq<Item>, c: Coding)
    ensures Slot(Tally(items), c).None? <==> forall i :: 0 <= i < |items| ==> items[i].coding != c
    ensures Slot(Tally(items), c).Some? ==>
              && Item(c, Slot(Tally(items), c).value) in items
              && forall i :: 0 <= i < |items| && items[i].coding == c ==> items[i].quality <= Slot(Tally(items), c).value
    decreases |items|
  {
    if items != [] {
      var last := |items| - 1;
      TallyIsHighest(items[..last], c);
      assert items == items[..last] + [items[last]];
    }
  }

  lemma SlotsAgree(a: Preferences, b: Preferences)
    requires forall c :: Slot(a, c) == Slot(b, c)
    ensures a == b
  {
    assert Slot(a, Gzip) == Slot(b, Gzip) && Slot(a, Brotli) == Slot(b, Brotli) && Slot(a, Zstd) == Slot(b, Zstd)
        && Slot(a, Plain) == Slot(b, Plain) && Slot(a, Wildcard) == Slot(b, Wildcard);
  }

  /** Order and repetition of items make no difference. */
  lemma SameItemsSameTally(x: seq<Item>, y: seq<Item>)
    requires multiset(x) == multiset(y)
    ensures Tally(x) == Tally(y)
  {
    forall item ensures item in x <==> item in y {
      assert item in multiset(x) <==> item in multiset(y);
    }
    forall c ensures Slot(Tally(x), c) == Slot(Tally(y), c) {
      TallyIsHighest(x, c);
      TallyIsHighest(y, c);
      HighestIsUnique(x, y, c);
      HighestIsUnique(y, x, c);
    }
    SlotsAgree(Tally(x), Tally(y));
  }

  lemma HighestIsUnique(x: seq<Item>, y: seq<Item>, c: Coding)
    requires forall item :: item in x ==> item in y
    ensures Slot(Tally(x), c).Some? ==>
              Slot(Tally(y), c).Some? && Slot(Tally(x), c).value <= Slot(Tally(y), c).value
  {
    TallyIsHighest(x, c);
    TallyIsHighest(y, c);
    if Slot(Tally(x), c).Some? {
      var item := Item(c, Slot(Tally(x), c).value);
      assert item in y;
      var i :| 0 <= i < |y| && y[i] == item;
    }
  }

  // ----- the choice --------------------------------------------------------------------------------------------

  datatype ContentCoding = Identity | GzipCoding | BrotliCoding | ZstdCoding | NotAcceptable

  datatype Negotiation = Negotiation(preferred: ContentCoding, identityAcceptable: bool)

  function Or(slot: Option<nat>, default: nat): nat {
    if slot.Some? then slot.value else default
  }

  /** A coding that is not named takes the wildcard's quality. */
  function Quality(p: Preferences, c: Coding): nat {
    Or(Slot(p, c), Or(p.wildcard, 0))
  }

  predicate IdentityAcceptable(p: Preferences) {
    Or(p.identity, if p.wildcard == Some(0) then 0 else 1000) > 0
  }

  datatype Candidate = Candidate(coding: ContentCoding, quality: nat)

  function Candidates(p: Preferences): seq<Candidate> {
    [Candidate(ZstdCoding, Quality(p, Zstd)), Candidate(BrotliCoding, Quality(p, Brotli)),
     Candidate(GzipCoding, Quality(p, Gzip))]
  }

  function Select(candidates: seq<Candidate>): Candidate {
    if candidates == [] then Candidate(NotAcceptable, 0)
    else
      var last := |candidates| - 1;
      var best := Select(candidates[..last]);
      if candidates[last].quality > best.quality then candidates[last] else best
  }

  function Choose(p: Preferences): Negotiation {
    var best := Select(Candidates(p));
    var preferred :=
      if best.quality > 0 && best.quality >= Or(p.identity, 0) then best.coding
      else if IdentityAcceptable(p) then Identity
      else NotAcceptable;
    Negotiation(preferred, IdentityAcceptable(p))
  }

  /** The choice is the best coding the client allows: it never has quality zero, ties go to
      zstd, then br, then gzip, and an explicit higher quality for identity wins. */
  lemma ChoosesTheBest(p: Preferences)
    ensures var (z, b, g, id) := (Quality(p, Zstd), Quality(p, Brotli), Quality(p, Gzip), Or(p.identity, 0));
            var r := Choose(p).preferred;
            && (r == ZstdCoding <==> z > 0 && z >= b && z >= g && z >= id)
            && (r == BrotliCoding <==> b > 0 && b > z && b >= g && b >= id)
            && (r == GzipCoding <==> g > 0 && g > z && g > b && g >= id)
            && (r == Identity ==> Choose(p).identityAcceptable)
            && (r == NotAcceptable <==> z == b == g == 0 && !Choose(p).identityAcceptable)
  {
    var c := Candidates(p);
    assert c[..2][..1] == c[..1] && c[..1][..0] == [] && c[..3] == c;
    assert Select(c[..1]) == if c[0].quality > 0 then c[0] else Candidate(NotAcceptable, 0);
    assert Select(c[..2]) == if c[1].quality > Select(c[..1]).quality then c[1] else Select(c[..1]);
  }

  // ----- the text ----------------------------------------------------------------------------------------------

  /** A weight in thousandths; a missing fraction after "0." is an error. */
  function ParseQuality(value: string): (q: Option<nat>)
    ensures q.Some? ==> q.value <= 1000
  {
    if value == "0" then Some(0)
    else if value == "1" then Some(1000)
    else
      var dot := IndexOf(value, '.');
      if dot == |value| then None
      else
        var whole, fraction := value[..dot], value[dot + 1..];
        if |fraction| > 3 || !Digits(fraction) then None
        else if whole == "1" then
          if forall i :: 0 <= i < |fraction| ==> fraction[i] == '0' then Some(1000) else None
        else if whole != "0" && whole != "" then None
        else if fraction == [] then None
        else
          NumberBound(fraction);
          Some(match |fraction| case 1 => Number(fraction) * 100 case 2 => Number(fraction) * 10 case _ => Number(fraction))
  }

  /** What a weight with a point in it must look like. */
  predicate Weight(whole: string, fraction: string) {
    && |fraction| <= 3 && Digits(fraction)
    && if whole == "1" then forall i :: 0 <= i < |fraction| ==> fraction[i] == '0'
       else (whole == "0" || whole == "") && fraction != []
  }

  /** The fraction as if written with three digits. */
  function Padded(fraction: string): (r: string)
    requires |fraction| <= 3 && Digits(fraction)
    ensures Digits(r) && |r| == 3
  {
    fraction + seq(3 - |fraction|, _ => '0')
  }

  lemma NumberZero(s: string)
    requires Digits(s)
    ensures Number(s + ['0']) == Number(s) * 10
  {
    assert (s + ['0'])[..|s|] == s;
  }

  lemma PaddedNumber(fraction: string)
    requires Digits(fraction) && 0 < |fraction| <= 3
    ensures Number(Padded(fraction))
            == match |fraction| case 1 => Number(fraction) * 100 case 2 => Number(fraction) * 10 case _ => Number(fraction)
  {
    NumberZero(fraction);
    if |fraction| == 1 {
      NumberZero(fraction + ['0']);
      assert Padded(fraction) == fraction + ['0'] + ['0'];
    } else if |fraction| == 2 {
      assert Padded(fraction) == fraction + ['0'];
    } else {
      assert Padded(fraction) == fraction;
    }
  }

  lemma {:induction false} FirstDot(whole: string, rest: string)
    requires '.' !in whole
    ensures IndexOf(whole + ['.'] + rest, '.') == |whole|
    decreases |whole|
  {
    var v := whole + ['.'] + rest;
    if whole != [] {
      FirstDot(whole[1..], rest);
      assert v[1..] == whole[1..] + ['.'] + rest;
    }
  }

  lemma {:induction false} NoDot(value: string)
    requires '.' !in value
    ensures IndexOf(value, '.') == |value|
    decreases |value|
  {
    if value != [] { NoDot(value[1..]); }
  }

  /** Which texts are weights, and that a fraction counts as if padded to three digits. */
  lemma ParseQualityMeans(whole: string, fraction: string)
    requires '.' !in whole
    ensures ParseQuality(whole) == if whole == "0" then Some(0) else if whole == "1" then Some(1000) else None
    ensures ParseQuality(whole + ['.'] + fraction)
            == if !Weight(whole, fraction) then None
               else if whole == "1" then Some(1000)
               else Some(Number(Padded(fraction)))
  {
    NoDot(whole);
    FirstDot(whole, fraction);
    var v := whole + ['.'] + fraction;
    assert v[|whole|] == '.' && v != "0" && v != "1";
    assert v[..|whole|] == whole && v[|whole| + 1..] == fraction;
    if Weight(whole, fraction) && whole != "1" { PaddedNumber(fraction); }
  }

  /** A weight written with three decimals. */
  function Thousandths(q: nat): string
    requires q <= 1000
  {
    [if q == 1000 then '1' else '0', '.', DigitOf(q / 100), DigitOf(q / 10), DigitOf(q)]
  }

  function DigitOf(n: nat): (c: char)
    ensures '0' <= c <= '9' && (c - '0') as nat == n % 10
  {
    ('0' as int + n % 10) as char
  }

  lemma NumberOfThree(x: nat, y: nat, z: nat)
    ensures Digits([DigitOf(x), DigitOf(y), DigitOf(z)])
    ensures Number([DigitOf(x), DigitOf(y), DigitOf(z)]) == (x % 10 * 10 + y % 10) * 10 + z % 10
  {
    var (a, b, c) := (DigitOf(x), DigitOf(y), DigitOf(z));
    assert [a, b, c][..2] == [a, b] && [a, b][..1] == [a] && [a][..0] == [];
    assert Number([a]) == x % 10;
    assert Number([a, b]) == x % 10 * 10 + y % 10;
  }

  lemma DotAfterOne(whole: char, fraction: string)
    requires whole != '.'
    ensures IndexOf([whole, '.'] + fraction, '.') == 1
  {
    var v := [whole, '.'] + fraction;
    assert v[1..][0] == '.';
  }

  lemma ParseFraction(x: nat, y: nat, z: nat)
    ensures ParseQuality(['0', '.'] + [DigitOf(x), DigitOf(y), DigitOf(z)]) == Some((x % 10 * 10 + y % 10) * 10 + z % 10)
  {
    var fraction := [DigitOf(x), DigitOf(y), DigitOf(z)];
    var v := ['0', '.'] + fraction;
    DotAfterOne('0', fraction);
    NumberOfThree(x, y, z);
    assert v[..1] == "0" && v[2..] == fraction;
  }

  lemma ParseOne()
    ensures ParseQuality("1.000") == Some(1000)
  {
    var v := ['1', '.'] + ['0', '0', '0'];
    DotAfterOne('1', ['0', '0', '0']);
    assert v == "1.000" && v[..1] == "1" && v[2..] == ['0', '0', '0'];
  }

  lemma ThreeDigits(q: nat)
    requires q < 1000
    ensures (q / 100 % 10 * 10 + q / 10 % 10) * 10 + q % 10 == q
  {
  }

  /** Every weight survives being written and parsed. */
  lemma QualityRoundTrip(q: nat)
    requires q <= 1000
    ensures ParseQuality(Thousandths(q)) == Some(q)
  {
    if q == 1000 {
      assert Thousandths(q) == "1.000";
      ParseOne();
    } else {
      assert Thousandths(q) == ['0', '.'] + [DigitOf(q / 100), DigitOf(q / 10), DigitOf(q)];
      ParseFraction(q / 100, q / 10, q);
      ThreeDigits(q);
    }
  }

  /** The last `q` parameter counts; a malformed one means zero. */
  function QualityOf(parameters: seq<string>, q: string): nat {
    if parameters == [] then 1000
    else
      var last := |parameters| - 1;
      var parameter := Trim(parameters[last]);
      var at := IndexOf(parameter, '=');
      if at < |parameter| && Lower(Trim(parameter[..at])) == q
      then Or(ParseQuality(Trim(parameter[at + 1..])), 0)
      else QualityOf(parameters[..last], q)
  }

  /** The coding names and the weight parameter's, in lower case. */
  datatype Names = Names(gzip: string, brotli: string, zstd: string, identity: string, star: string, q: string)

  const NAMES := Names("gzip", "br", "zstd", "identity", "*", "q")

  function CodingOf(name: string, n: Names): Option<Coding> {
    if Lower(name) == n.gzip then Some(Gzip)
    else if Lower(name) == n.brotli then Some(Brotli)
    else if Lower(name) == n.zstd then Some(Zstd)
    else if Lower(name) == n.identity then Some(Plain)
    else if name == n.star then Some(Wildcard)
    else None
  }

  function ItemOf(text: string, n: Names): Option<Item> {
    var parts := Split(Trim(text), ';');
    match CodingOf(Trim(parts[0]), n)
    case None => None
    case Some(coding) => Some(Item(coding, QualityOf(parts[1..], n.q)))
  }

  function ItemsOf(texts: seq<string>, n: Names): seq<Item> {
    if texts == [] then []
    else
      var last := |texts| - 1;
      ItemsOf(texts[..last], n) + match ItemOf(texts[last], n) case None => [] case Some(item) => [item]
  }

  /** The items of one field; a field that cannot be read as text has none. */
  function FieldItems(value: string, n: Names): seq<Item> {
    if Readable(value) then ItemsOf(Split(value, ','), n) else []
  }

  function Reader(n: Names): string -> seq<Item> {
    value => FieldItems(value, n)
  }

  function AllItems(values: seq<string>, n: Names): seq<Item> {
    Gather(values, Reader(n))
  }

  function General(values: seq<string>, n: Names): Negotiation {
    Choose(Tally(AllItems(values, n)))
  }

  /** The shortcut for a single field that is one bare token. */
  function Fast(value: string, n: Names): Option<Negotiation> {
    var v := Lower(value);
    if v == n.identity then Some(Negotiation(Identity, true))
    else if v == n.gzip then Some(Negotiation(GzipCoding, true))
    else if v == n.brotli then Some(Negotiation(BrotliCoding, true))
    else if v == n.zstd || value == n.star then Some(Negotiation(ZstdCoding, true))
    else None
  }

  function Negotiate(values: seq<string>, n: Names): Negotiation {
    if values == [] then Negotiation(Identity, true)
    else if |values| == 1 && Fast(values[0], n).Some? then Fast(values[0], n).value
    else General(values, n)
  }

  // ----- the shortcut ----------------------------------------------------------------------------------------

  /** A token without separators or white space. */
  predicate Bare(s: string) {
    s != [] && forall i :: 0 <= i < |s| ==> Ordinary(s[i])
  }

  predicate Ordinary(c: char) {
    ' ' < c < 127 as char && c != ',' && c != ';'
  }

  /** The names are bare, in lower case and all different. */
  predicate Distinct(n: Names) {
    && Bare(n.gzip) && Bare(n.brotli) && Bare(n.zstd) && Bare(n.identity) && Bare(n.star)
    && Lower(n.star) == n.star
    && n.gzip != n.brotli && n.gzip != n.zstd && n.gzip != n.identity && n.gzip != n.star
    && n.brotli != n.zstd && n.brotli != n.identity && n.brotli != n.star
    && n.zstd != n.identity && n.zstd != n.star && n.identity != n.star
  }

  lemma NamesAreBare()
    ensures Bare(NAMES.gzip) && Bare(NAMES.brotli) && Bare(NAMES.zstd) && Bare(NAMES.identity) && Bare(NAMES.star)
  {
  }

  lemma NamesAreDistinct()
    ensures Distinct(NAMES)
  {
    NamesAreBare();
    assert NAMES.star[0] == '*' && Lower(NAMES.star)[0] == '*';
    assert NAMES.gzip[0] == 'g' && NAMES.zstd[0] == 'z';
    assert |NAMES.gzip| == 4 && |NAMES.brotli| == 2 && |NAMES.zstd| == 4 && |NAMES.identity| == 8 && |NAMES.star| == 1;
  }

  lemma BareLower(s: string)
    requires Bare(Lower(s))
    ensures Bare(s)
  {
    forall i | 0 <= i < |s| ensures Ordinary(s[i]) { assert Ordinary(Lower(s)[i]); }
  }

  /** A bare token is one item of full quality. */
  lemma BareItem(value: string, n: Names)
    requires Bare(value)
    ensures FieldItems(value, n) == match CodingOf(value, n) case None => [] case Some(c) => [Item(c, 1000)]
  {
    SplitNone(value, ',');
    SplitNone(value, ';');
    assert Trim(value) == value;
    var parts := [value];
    assert parts[0] == value && parts[1..] == [] && parts[..0] == [];
    assert QualityOf(parts[1..], n.q) == 1000;
    assert ItemsOf(parts[..0], n) == [];
  }

  lemma ChooseOne(c: Coding)
    ensures Choose(Tally([Item(c, 1000)]))
            == Negotiation(match c
                           case Gzip => GzipCoding
                           case Brotli => BrotliCoding
                           case Zstd => ZstdCoding
                           case Plain => Identity
                           case Wildcard => ZstdCoding, true)
  {
    assert [Item(c, 1000)][..0] == [];
    ChoosesTheBest(Tally([Item(c, 1000)]));
  }

  lemma FastIsGeneral(value: string, n: Names)
    requires Distinct(n) && Fast(value, n).Some?
    ensures General([value], n) == Fast(value, n).value
  {
    assert [value][..0] == [];
    if Lower(value) == n.identity || Lower(value) == n.gzip || Lower(value) == n.brotli || Lower(value) == n.zstd {
      BareLower(value);
    }
    BareItem(value, n);
    GatherOne(value, Reader(n));
    ChooseOne(CodingOf(value, n).value);
  }

  /** With or without the shortcut and the empty case, the general rule decides. */
  lemma NegotiateIsGeneral(values: seq<string>)
    ensures Negotiate(values, NAMES) == General(values, NAMES)
  {
    NamesAreDistinct();
    if values == [] {
      ChoosesTheBest(Nothing);
    } else if |values| == 1 && Fast(values[0], NAMES).Some? {
      assert values == [values[0]];
      FastIsGeneral(values[0], NAMES);
    }
  }

  // ----- reordering, splitting and joining fields ------------------------------------------------------------------

  lemma {:induction false} ItemsConcat(x: seq<string>, y: seq<string>, n: Names)
    ensures ItemsOf(x + y, n) == ItemsOf(x, n) + ItemsOf(y, n)
    decreases |y|
  {
    if y == [] {
      assert x + y == x;
    } else {
      var last := |y| - 1;
      assert (x + y)[..|x + y| - 1] == x + y[..last];
      ItemsConcat(x, y[..last], n);
    }
  }

  lemma JoinedItems(a: string, b: string, n: Names)
    requires Readable(a) && Readable(b)
    ensures FieldItems(a + [','] + b, n) == FieldItems(a, n) + FieldItems(b, n)
  {
    SplitJoin(a, b, ',');
    ItemsConcat(Split(a, ','), Split(b, ','), n);
  }

  /** Both fields can be read as text, or neither names a coding. */
  predicate Joinable(a: string, b: string, n: Names) {
    (Readable(a) && Readable(b)) || (FieldItems(a, n) == [] && FieldItems(b, n) == [])
  }

  /** Joined to a field that cannot be read as text, a field loses its items. */
  lemma UnreadableTakesAll(a: string, b: string, n: Names)
    requires !Readable(a) || !Readable(b)
    ensures FieldItems(a + [','] + b, n) == []
  {
    var ab := a + [','] + b;
    assert forall i :: 0 <= i < |a| ==> ab[i] == a[i];
    assert forall i :: 0 <= i < |b| ==> ab[|a| + 1 + i] == b[i];
  }

  /** Joining keeps the items of two fields exactly if they are joinable. */
  lemma JoiningKeepsItemsExactly(a: string, b: string, n: Names)
    ensures FieldItems(a + [','] + b, n) == FieldItems(a, n) + FieldItems(b, n) <==> Joinable(a, b, n)
  {
    if Readable(a) && Readable(b) { JoinedItems(a, b, n); } else { UnreadableTakesAll(a, b, n); }
  }

  /** Only the multiset of items matters. */
  lemma OnlyItemsMatter(x: seq<string>, y: seq<string>)
    requires multiset(AllItems(x, NAMES)) == multiset(AllItems(y, NAMES))
    ensures Negotiate(x, NAMES) == Negotiate(y, NAMES)
  {
    NegotiateIsGeneral(x);
    NegotiateIsGeneral(y);
    SameItemsSameTally(AllItems(x, NAMES), AllItems(y, NAMES));
  }

  /** Joining two such fields into one, or splitting one, anywhere in the list changes nothing. */
  lemma JoiningFieldsChangesNothing(before: seq<string>, a: string, b: string, after: seq<string>)
    requires Joinable(a, b, NAMES)
    ensures Negotiate(before + [a, b] + after, NAMES) == Negotiate(before + [a + [','] + b] + after, NAMES)
  {
    JoiningKeepsItemsExactly(a, b, NAMES);
    GatherJoined(before, a, b, a + [','] + b, after, Reader(NAMES));
    OnlyItemsMatter(before + [a, b] + after, before + [a + [','] + b] + after);
  }

  /** Reordering the fields changes nothing. */
  lemma ReorderingFieldsChangesNothing(x: seq<string>, y: seq<string>)
    requires multiset(x) == multiset(y)
    ensures Negotiate(x, NAMES) == Negotiate(y, NAMES)
  {
    SameValuesSameGather(x, y, Reader(NAMES));
    OnlyItemsMatter(x, y);
  }

  // ----- the program's loops --------------------------------------------------------------------------------------

  method QualityLoop(parameters: seq<string>, q: string) returns (quality: nat)
    ensures quality == QualityOf(parameters, q)
  {
    quality := 1000;
    for i := 0 to |parameters|
      invariant quality == QualityOf(parameters[..i], q)
    {
      assert parameters[..i + 1][..i] == parameters[..i];
      var parameter := Trim(parameters[i]);
      var at := IndexOf(parameter, '=');
      if at < |parameter| {
        if Lower(Trim(parameter[..at])) == q { quality := Or(ParseQuality(Trim(parameter[at + 1..])), 0); }
      }
    }
    assert parameters[..|parameters|] == parameters;
  }

  lemma TallySnoc(items: seq<Item>, item: Item)
    ensures Tally(items + [item]) == Record(Tally(items), item)
  {
    assert (items + [item])[..|items|] == items;
  }

  method ParseItem(text: string, p: Preferences, n: Names) returns (r: Preferences)
    ensures r == match ItemOf(text, n) case None => p case Some(item) => Record(p, item)
  {
    var parts := Split(Trim(text), ';');
    var coding := CodingOf(Trim(parts[0]), n);
    if coding.None? { return p; }
    var quality := QualityLoop(parts[1..], n.q);
    return Record(p, Item(coding.value, quality));
  }

  method ParseValue(value: string, n: Names, ghost before: seq<Item>, p: Preferences) returns (r: Preferences)
    requires p == Tally(before)
    ensures r == Tally(before + FieldItems(value, n))
  {
    if !Readable(value) {
      assert before + [] == before;
      return p;
    }
    r := p;
    var texts := Split(value, ',');
    assert before + [] == before;
    for i := 0 to |texts|
      invariant r == Tally(before + ItemsOf(texts[..i], n))
    {
      assert texts[..i + 1][..i] == texts[..i];
      ghost var items := before + ItemsOf(texts[..i], n);
      ghost var item := ItemOf(texts[i], n);
      r := ParseItem(texts[i], r, n);
      if item.Some? {
        TallySnoc(items, item.value);
        assert items + [item.value] == before + (ItemsOf(texts[..i], n) + [item.value]);
      } else {
        assert ItemsOf(texts[..i], n) + [] == ItemsOf(texts[..i], n);
      }
    }
    assert texts[..|texts|] == texts;
  }

  method SelectLoop(candidates: seq<Candidate>) returns (selected: Candidate)
    ensures selected == Select(candidates)
  {
    selected := Candidate(NotAcceptable, 0);
    for i := 0 to |candidates|
      invariant selected == Select(candidates[..i])
    {
      assert candidates[..i + 1][..i] == candidates[..i];
      if candidates[i].quality > selected.quality { selected := candidates[i]; }
    }
    assert candidates[..|candidates|] == candidates;
  }

  method NegotiateLoop(values: seq<string>, n: Names) returns (r: Negotiation)
    ensures r == Negotiate(values, n)
  {
    if values == [] { return Negotiation(Identity, true); }
    if |values| == 1 {
      var fast := Fast(values[0], n);
      if fast.Some? { return fast.value; }
    }
    var p := Nothing;
    for i := 0 to |values|
      invariant p == Tally(AllItems(values[..i], n))
    {
      assert values[..i + 1][..i] == values[..i];
      p := ParseValue(values[i], n, AllItems(values[..i], n), p);
    }
    assert values[..|values|] == values;
    var best := SelectLoop(Candidates(p));
    var acceptable := IdentityAcceptable(p);
    var preferred := if best.quality > 0 && best.quality >= Or(p.identity, 0) then best.coding
                     else if acceptable then Identity
                     else NotAcceptable;
    return Negotiation(preferred, acceptable);
  }
}
