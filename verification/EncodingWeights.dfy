/**
  Weights in Accept-Encoding fields (src/content_encoding.rs; section 12.4.2 of RFC 9110): the
  weight written behind a coding is the one it is chosen by.
 */
module EncodingWeights {
  import opened Common
  import opened Text
  import opened ContentEncoding
  import opened EncodingJoin

  // ----- parameters ----------------------------------------------------------------------------------------

  const Q := "q"

  predicate IsQ(c: char) {
    c == 'q' || c == 'Q'
  }

  lemma WeightParameter(c: char, v: string, q: string)
    requires IsQ(c) && Trimmed(v) && q == [LowerChar(c)]
    ensures var p := [c, '='] + v;
            && Trim(p) == p && IndexOf(p, '=') == 1 && Lower(Trim(p[..1])) == q && Trim(p[2..]) == v
  {
    var p := [c, '='] + v;
    TrimmedIsTrim(p);
    TrimmedIsTrim(v);
    TrimmedIsTrim([c]);
    assert p[1..][0] == '=';
    assert p[..1] == [c] && p[2..] == v;
  }

  /** The last weight counts, whatever comes before it; a malformed one counts as zero. */
  lemma LastWeightCounts(parameters: seq<string>, c: char, v: string, q: string)
    requires IsQ(c) && Trimmed(v) && q == [LowerChar(c)]
    ensures QualityOf(parameters + [[c, '='] + v], q) == Or(ParseQuality(v), 0)
  {
    var p := [c, '='] + v;
    WeightParameter(c, v, q);
    assert (parameters + [p])[|parameters|] == p;
  }

  /** A parameter with another name, or none, changes nothing. */
  lemma OtherParametersAreIgnored(parameters: seq<string>, p: string, q: string)
    requires var t := Trim(p); IndexOf(t, '=') < |t| ==> Lower(Trim(t[..IndexOf(t, '=')])) != q
    ensures QualityOf(parameters + [p], q) == QualityOf(parameters, q)
  {
    assert (parameters + [p])[..|parameters|] == parameters;
  }

  lemma NoWeightIsFull(q: string)
    ensures QualityOf([], q) == 1000
  {
  }

  // ----- one item --------------------------------------------------------------------------------------------

  /** A coding name and its parameters, with their semicolons. */
  function Written(name: string, parameters: seq<string>): string {
    if parameters == [] then name
    else var last := |parameters| - 1; Written(name, parameters[..last]) + [';'] + parameters[last]
  }

  predicate AllBare(parameters: seq<string>) {
    forall i :: 0 <= i < |parameters| ==> Bare(parameters[i])
  }

  /** What the text of an item and of its parameters both are. */
  predicate OneField(w: string) {
    w != [] && Readable(w) && ',' !in w && Trimmed(w)
  }

  lemma PlainJoin(before: string, p: string)
    requires OneField(before) && Bare(p)
    ensures OneField(before + [';'] + p)
  {
    var w := before + [';'] + p;
    assert w[|w| - 1] == p[|p| - 1];
  }

  lemma {:induction false} WrittenParts(name: string, parameters: seq<string>)
    requires Bare(name) && AllBare(parameters)
    ensures var w := Written(name, parameters); OneField(w) && Split(w, ';') == [name] + parameters
    decreases |parameters|
  {
    if parameters == [] {
      SplitNone(name, ';');
      assert [name] + [] == [name];
    } else {
      var last := |parameters| - 1;
      var before, p := Written(name, parameters[..last]), parameters[last];
      WrittenParts(name, parameters[..last]);
      PlainJoin(before, p);
      SplitNone(p, ';');
      SplitJoin(before, p, ';');
      assert [name] + parameters[..last] + [p] == [name] + parameters;
    }
  }

  lemma ItemFrom(text: string, name: string, parameters: seq<string>, n: Names)
    requires Trim(text) == text && Split(text, ';') == [name] + parameters && Trim(name) == name && CodingOf(name, n).Some?
    ensures ItemOf(text, n) == Some(Item(CodingOf(name, n).value, QualityOf(parameters, n.q)))
  {
    assert ([name] + parameters)[1..] == parameters && ([name] + parameters)[0] == name;
  }

  lemma WrittenItem(name: string, parameters: seq<string>, n: Names)
    requires Bare(name) && AllBare(parameters) && CodingOf(name, n).Some?
    ensures ItemOf(Written(name, parameters), n) == Some(Item(CodingOf(name, n).value, QualityOf(parameters, n.q)))
    ensures FieldItems(Written(name, parameters), n) == [Item(CodingOf(name, n).value, QualityOf(parameters, n.q))]
  {
    var w := Written(name, parameters);
    WrittenParts(name, parameters);
    TrimmedIsTrim(w);
    TrimmedIsTrim(name);
    ItemFrom(w, name, parameters, n);
    SplitNone(w, ',');
    OneItem(w, n);
  }

  /** Names are recognised whatever their case. */
  lemma CaseDoesNotMatter(name: string, other: string, n: Names)
    requires Lower(name) == Lower(other) && name != n.star && other != n.star
    ensures CodingOf(name, n) == CodingOf(other, n)
  {
  }

  /** White space around a list element does not matter. */
  lemma SpaceDoesNotMatter(c: char, text: string, n: Names)
    requires IsSpace(c)
    ensures ItemOf([c] + text, n) == ItemOf(text, n) && ItemOf(text + [c], n) == ItemOf(text, n)
  {
    TrimLead(c, text);
    TrimTrail(c, text);
  }

  // ----- a written weight is the item's quality ------------------------------------------------------------------

  /** "q=" and a weight with three decimals. */
  function WeightText(quality: nat): string
    requires quality <= 1000
  {
    ['q', '='] + Thousandths(quality)
  }

  predicate Decimal(v: string) {
    v != [] && forall i :: 0 <= i < |v| ==> '.' <= v[i] <= '9'
  }

  lemma ThousandthsDecimal(quality: nat)
    requires quality <= 1000
    ensures Decimal(Thousandths(quality))
  {
  }

  lemma DecimalWeight(v: string, quality: nat)
    requires Decimal(v) && ParseQuality(v) == Some(quality)
    ensures Bare(['q', '='] + v) && QualityOf([['q', '='] + v], Q) == quality
  {
    var p := ['q', '='] + v;
    forall i | 0 <= i < |p| ensures Ordinary(p[i]) { if i >= 2 { assert p[i] == v[i - 2]; } }
    LastWeightCounts([], 'q', v, Q);
    assert [] + [p] == [p];
  }

  lemma WeightTextIs(quality: nat)
    requires quality <= 1000
    ensures Bare(WeightText(quality)) && QualityOf([WeightText(quality)], Q) == quality
  {
    ThousandthsDecimal(quality);
    QualityRoundTrip(quality);
    DecimalWeight(Thousandths(quality), quality);
  }

  function Weighted(c: Coding, quality: nat, n: Names): string
    requires quality <= 1000
  {
    Written(NameOf(c, n), [WeightText(quality)])
  }

  lemma WeightedItem(c: Coding, quality: nat, n: Names, zero: string)
    requires quality <= 1000 && Expressible(n, zero) && n.q == Q
    ensures ItemOf(Weighted(c, quality, n), n) == Some(Item(c, quality))
    ensures FieldItems(Weighted(c, quality, n), n) == [Item(c, quality)]
  {
    WeightTextIs(quality);
    WrittenItem(NameOf(c, n), [WeightText(quality)], n);
  }

  /** For every coding and every weight, the field that writes them has exactly that item. */
  lemma WrittenWeightIsTheQuality(c: Coding, quality: nat)
    requires quality <= 1000
    ensures FieldItems(Weighted(c, quality, NAMES), NAMES) == [Item(c, quality)]
  {
    NamesExpress();
    WeightedItem(c, quality, NAMES, ZERO);
  }

  // ----- the higher weight wins -----------------------------------------------------------------------------------

  predicate Compresses(c: Coding) {
    c.Gzip? || c.Brotli? || c.Zstd?
  }

  function CodingFor(c: Coding): ContentCoding
    requires Compresses(c)
  {
    match c case Gzip => GzipCoding case Brotli => BrotliCoding case Zstd => ZstdCoding
  }

  lemma TallyTwo(a: Item, b: Item)
    ensures Tally([a, b]) == Record(Record(Nothing, a), b)
  {
    assert [a, b][..1] == [a] && [a][..0] == [];
    assert Tally([a]) == Record(Nothing, a);
  }

  lemma HigherIsChosen(a: Item, b: Item)
    requires Compresses(a.coding) && Compresses(b.coding) && a.coding != b.coding && a.quality < b.quality
    ensures Choose(Tally([a, b])).preferred == CodingFor(b.coding) == Choose(Tally([b, a])).preferred
  {
    TallyTwo(a, b);
    TallyTwo(b, a);
    ChoosesTheBest(Tally([a, b]));
    ChoosesTheBest(Tally([b, a]));
  }

  lemma TwoItems(x: string, y: string, n: Names)
    requires Readable(x) && Readable(y) && ',' !in x && ',' !in y && ItemOf(x, n).Some? && ItemOf(y, n).Some?
    ensures FieldItems(x + [','] + ([' '] + y), n) == [ItemOf(x, n).value, ItemOf(y, n).value]
  {
    var z := [' '] + y;
    SplitNone(x, ',');
    SplitNone(z, ',');
    SpaceDoesNotMatter(' ', y, n);
    OneItem(x, n);
    OneItem(z, n);
    JoinedItems(x, z, n);
  }

  lemma TwoWeighted(a: Item, b: Item, n: Names, zero: string)
    requires a.quality <= 1000 && b.quality <= 1000 && Expressible(n, zero) && n.q == Q
    ensures FieldItems(Weighted(a.coding, a.quality, n) + [','] + ([' '] + Weighted(b.coding, b.quality, n)), n) == [a, b]
  {
    WeightTextIs(a.quality);
    WeightTextIs(b.quality);
    WrittenParts(NameOf(a.coding, n), [WeightText(a.quality)]);
    WrittenParts(NameOf(b.coding, n), [WeightText(b.quality)]);
    WeightedItem(a.coding, a.quality, n, zero);
    WeightedItem(b.coding, b.quality, n, zero);
    TwoItems(Weighted(a.coding, a.quality, n), Weighted(b.coding, b.quality, n), n);
  }

  /** The field that writes two items, one after the other. */
  function Both(a: Item, b: Item): string
    requires a.quality <= 1000 && b.quality <= 1000
  {
    Weighted(a.coding, a.quality, NAMES) + [','] + ([' '] + Weighted(b.coding, b.quality, NAMES))
  }

  /** From the text of one field to the choice: of two codings the one with the higher weight is
      chosen, in whichever order they are written. */
  lemma HigherWeightWins(a: Item, b: Item)
    requires Compresses(a.coding) && Compresses(b.coding) && a.coding != b.coding && a.quality < b.quality <= 1000
    ensures Negotiate([Both(a, b)], NAMES).preferred == CodingFor(b.coding)
    ensures Negotiate([Both(b, a)], NAMES).preferred == CodingFor(b.coding)
  {
    NamesExpress();
    TwoWeighted(a, b, NAMES, ZERO);
    TwoWeighted(b, a, NAMES, ZERO);
    GatherOne(Both(a, b), Reader(NAMES));
    GatherOne(Both(b, a), Reader(NAMES));
    NegotiateIsGeneral([Both(a, b)]);
    NegotiateIsGeneral([Both(b, a)]);
    HigherIsChosen(a, b);
  }

  // ----- identity ---------------------------------------------------------------------------------------------------

  predicate Mentions(items: seq<Item>, c: Coding) {
    exists i :: 0 <= i < |items| && items[i].coding == c
  }

  predicate Wanted(items: seq<Item>, c: Coding) {
    exists i :: 0 <= i < |items| && items[i].coding == c && items[i].quality > 0
  }

  lemma SlotTells(items: seq<Item>, c: Coding)
    ensures Slot(Tally(items), c).Some? <==> Mentions(items, c)
    ensures Slot(Tally(items), c).Some? && Slot(Tally(items), c).value > 0 <==> Wanted(items, c)
  {
    TallyIsHighest(items, c);
    if Slot(Tally(items), c).Some? {
      var i :| 0 <= i < |items| && items[i] == Item(c, Slot(Tally(items), c).value);
    }
  }

  /** An uncompressed answer is acceptable unless identity is named and only refused, or is not named
      and the wildcard is named and only refused. */
  lemma IdentityAcceptableExactly(items: seq<Item>)
    ensures Choose(Tally(items)).identityAcceptable <==>
              if Mentions(items, Plain) then Wanted(items, Plain)
              else Mentions(items, Wildcard) ==> Wanted(items, Wildcard)
  {
    SlotTells(items, Plain);
    SlotTells(items, Wildcard);
  }
}
