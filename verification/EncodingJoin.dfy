/**
  Exactly which Accept-Encoding fields may be joined (src/content_encoding.rs): a field that
  cannot be read as text is skipped as a whole, and takes what is joined to it along.
 */
module EncodingJoin {
  import opened Common
  import opened Text
  import opened ContentEncoding

  // ----- what further items do to a choice -----------------------------------------------------------------

  function Both(a: Option<nat>, b: Option<nat>): Option<nat> {
    if b.None? then a else Higher(a, b.value)
  }

  lemma {:induction false} MergedSlot(x: seq<Item>, y: seq<Item>, c: Coding)
    ensures Slot(Tally(x + y), c) == Both(Slot(Tally(x), c), Slot(Tally(y), c))
    decreases |y|
  {
    if y == [] {
      assert x + y == x;
    } else {
      var last := |y| - 1;
      assert (x + y)[..|x + y| - 1] == x + y[..last];
      MergedSlot(x, y[..last], c);
    }
  }

  function Add(p: Preferences, q: Preferences): Preferences {
    Preferences(Both(p.gzip, q.gzip), Both(p.brotli, q.brotli), Both(p.zstd, q.zstd), Both(p.identity, q.identity),
                Both(p.wildcard, q.wildcard))
  }

  lemma Merged(x: seq<Item>, y: seq<Item>)
    ensures Tally(x + y) == Add(Tally(x), Tally(y))
  {
    forall c ensures Slot(Tally(x + y), c) == Slot(Add(Tally(x), Tally(y)), c) { MergedSlot(x, y, c); }
    SlotsAgree(Tally(x + y), Add(Tally(x), Tally(y)));
  }

  const NoStar := [Item(Wildcard, 0)]

  /** Any coding but two of the three. */
  function Only(c: Coding): seq<Item> {
    match c
    case Gzip => [Item(Wildcard, 1000), Item(Brotli, 0), Item(Zstd, 0)]
    case Brotli => [Item(Wildcard, 1000), Item(Gzip, 0), Item(Zstd, 0)]
    case _ => [Item(Wildcard, 1000), Item(Gzip, 0), Item(Brotli, 0)]
  }

  /** The items that tell `p` from nothing. */
  function Backdrop(p: Preferences): seq<Item> {
    if p.identity.Some? then if p.identity.value > 0 then NoStar else []
    else if p.wildcard.Some? then if p.wildcard.value > 0 then NoStar else []
    else if Or(p.gzip, 0) > 0 || Or(p.brotli, 0) > 0 || Or(p.zstd, 0) > 0 then []
    else if p.gzip.Some? then Only(Gzip)
    else if p.brotli.Some? then Only(Brotli)
    else Only(Zstd)
  }

  lemma NoStarTally()
    ensures Tally(NoStar) == Nothing.(wildcard := Some(0))
  {
    assert NoStar[..0] == [];
  }

  lemma OnlyTally(c: Coding)
    ensures Tally(Only(c)) == match c
                              case Gzip => Preferences(None, Some(0), Some(0), None, Some(1000))
                              case Brotli => Preferences(Some(0), None, Some(0), None, Some(1000))
                              case _ => Preferences(Some(0), Some(0), None, None, Some(1000))
  {
    var s := Only(c);
    assert s[..2][..1] == s[..1] && s[..1][..0] == [];
    assert Tally(s[..1]) == Record(Nothing, s[0]);
    assert Tally(s[..2]) == Record(Tally(s[..1]), s[1]);
  }

  lemma IdentitySeen(p: Preferences)
    requires p.identity.Some? || p.wildcard.Some?
    ensures var back := Tally(Backdrop(p)); IdentityAcceptable(Add(back, p)) != IdentityAcceptable(back)
  {
    NoStarTally();
  }

  lemma CodingSeen(p: Preferences)
    requires p != Nothing && p.identity.None? && p.wildcard.None?
    ensures var back := Tally(Backdrop(p)); Choose(Add(back, p)).preferred != Choose(back).preferred
  {
    var back := Tally(Backdrop(p));
    OnlyTally(Gzip);
    OnlyTally(Brotli);
    OnlyTally(Zstd);
    ChoosesTheBest(Add(back, p));
    ChoosesTheBest(back);
  }

  lemma SomeSlot(items: seq<Item>)
    requires items != []
    ensures Tally(items) != Nothing
  {
    TallyIsHighest(items, items[0].coding);
  }

  /** No items go unnoticed: before their backdrop they change the outcome. */
  lemma ItemsAreSeen(items: seq<Item>)
    requires items != []
    ensures var back := Backdrop(Tally(items)); Choose(Tally(back + items)) != Choose(Tally(back))
  {
    var p := Tally(items);
    SomeSlot(items);
    Merged(Backdrop(p), items);
    if p.identity.Some? || p.wildcard.Some? { IdentitySeen(p); } else { CodingSeen(p); }
  }

  // ----- the backdrops as fields ---------------------------------------------------------------------------

  function NameOf(c: Coding, n: Names): string {
    match c
    case Gzip => n.gzip
    case Brotli => n.brotli
    case Zstd => n.zstd
    case Plain => n.identity
    case Wildcard => n.star
  }

  /** Each coding can be named, and `zero` is a parameter that gives it quality zero. */
  predicate Expressible(n: Names, zero: string) {
    && Bare(zero) && QualityOf([zero], n.q) == 0
    && forall c :: Bare(NameOf(c, n)) && CodingOf(NameOf(c, n), n) == Some(c)
  }

  const ZERO := "q=0"

  lemma ZeroParameter()
    ensures Bare(ZERO) && QualityOf([ZERO], NAMES.q) == 0
  {
    assert [ZERO][0] == ZERO && |[ZERO]| == 1 && Trim(ZERO) == ZERO;
    assert ZERO[1..][0] == '=' && IndexOf(ZERO, '=') == 1;
    assert ZERO[..1] == "q" && ZERO[2..] == "0";
    assert Trim("q") == "q" && Lower("q") == "q" && Trim("0") == "0";
  }

  predicate NoUpper(s: string) {
    forall i :: 0 <= i < |s| ==> !('A' <= s[i] <= 'Z')
  }

  predicate InLowerCase(n: Names) {
    NoUpper(n.gzip) && NoUpper(n.brotli) && NoUpper(n.zstd) && NoUpper(n.identity)
  }

  lemma NamesAreLower()
    ensures InLowerCase(NAMES)
  {
  }

  lemma LowerStays(s: string)
    requires NoUpper(s)
    ensures Lower(s) == s
  {
  }

  lemma NameIsRead(c: Coding, n: Names)
    requires Distinct(n) && InLowerCase(n)
    ensures CodingOf(NameOf(c, n), n) == Some(c)
  {
    match c
    case Gzip => LowerStays(n.gzip);
    case Brotli => LowerStays(n.brotli);
    case Zstd => LowerStays(n.zstd);
    case Plain => LowerStays(n.identity);
    case Wildcard =>
  }

  lemma DistinctNamesExpress(n: Names, zero: string)
    requires Distinct(n) && InLowerCase(n) && Bare(zero) && QualityOf([zero], n.q) == 0
    ensures Expressible(n, zero)
  {
    forall c ensures Bare(NameOf(c, n)) && CodingOf(NameOf(c, n), n) == Some(c) { NameIsRead(c, n); }
  }

  lemma NamesExpress()
    ensures Expressible(NAMES, ZERO)
  {
    ZeroParameter();
    NamesAreDistinct();
    NamesAreLower();
    DistinctNamesExpress(NAMES, ZERO);
  }

  lemma BareParts(name: string, zero: string)
    requires Bare(name) && Bare(zero)
    ensures var v := name + [';'] + zero; Readable(v) && ',' !in v && Trim(v) == v && Split(v, ';') == [name, zero]
    ensures Trim(name) == name
  {
    SplitNone(name, ';');
    SplitNone(zero, ';');
    SplitJoin(name, zero, ';');
    assert [name] + [zero] == [name, zero];
  }

  lemma ZeroItem(v: string, name: string, zero: string, n: Names)
    requires Trim(name) == name && QualityOf([zero], n.q) == 0 && CodingOf(name, n).Some?
    requires Trim(v) == v && Split(v, ';') == [name, zero]
    ensures ItemOf(v, n) == Some(Item(CodingOf(name, n).value, 0))
  {
    assert [name, zero][1..] == [zero] && [name, zero][0] == name;
  }

  lemma ZeroField(name: string, zero: string, n: Names)
    requires Bare(name) && Bare(zero) && QualityOf([zero], n.q) == 0 && CodingOf(name, n).Some?
    ensures FieldItems(name + [';'] + zero, n) == [Item(CodingOf(name, n).value, 0)]
  {
    var v := name + [';'] + zero;
    BareParts(name, zero);
    ZeroItem(v, name, zero, n);
    SplitNone(v, ',');
    OneItem(v, n);
  }

  lemma OneItem(v: string, n: Names)
    requires ItemOf(v, n).Some?
    ensures ItemsOf([v], n) == [ItemOf(v, n).value]
  {
    assert [v][..0] == [];
    assert ItemsOf([], n) == [];
  }

  /** One field per item, of full quality or of none. */
  function FieldFor(item: Item, n: Names, zero: string): string {
    NameOf(item.coding, n) + if item.quality == 0 then [';'] + zero else []
  }

  function FieldsFor(items: seq<Item>, n: Names, zero: string): seq<string> {
    seq(|items|, i requires 0 <= i < |items| => FieldFor(items[i], n, zero))
  }

  lemma FieldForItem(item: Item, n: Names, zero: string)
    requires item.quality in {0, 1000} && Expressible(n, zero)
    ensures FieldItems(FieldFor(item, n, zero), n) == [item]
  {
    var name := NameOf(item.coding, n);
    assert FieldFor(item, n, zero) == if item.quality == 0 then name + [';'] + zero else name;
    if item.quality == 0 { ZeroField(name, zero, n); } else { BareItem(name, n); }
  }

  predicate FullOrNone(items: seq<Item>) {
    forall i :: 0 <= i < |items| ==> items[i].quality in {0, 1000}
  }

  lemma FieldsForItems(items: seq<Item>, n: Names, zero: string)
    requires Expressible(n, zero) && FullOrNone(items)
    ensures AllItems(FieldsFor(items, n, zero), n) == items
  {
    var fields := FieldsFor(items, n, zero);
    forall i | 0 <= i < |fields| ensures Reader(n)(fields[i]) == [items[i]] { FieldForItem(items[i], n, zero); }
    GatherEach(fields, items, Reader(n));
  }

  // ----- the exact condition ---------------------------------------------------------------------------------

  /** Beside any other fields, `a` and `b` negotiate the same whether joined or not. */
  ghost predicate JoinedAlways(a: string, b: string) {
    forall before: seq<string>, after: seq<string> :: JoinedWithin(before, a, b, after)
  }

  predicate JoinedWithin(before: seq<string>, a: string, b: string, after: seq<string>) {
    Negotiate(before + [a, b] + after, NAMES) == Negotiate(before + [a + [','] + b] + after, NAMES)
  }

  /** Beside fields before which its items show, a pair that is not joinable shows and joined it does not. */
  lemma JoiningShows(a: string, b: string, back: seq<string>, n: Names)
    requires !Joinable(a, b, n)
    requires var x := AllItems(back, n);
             Choose(Tally(x + (FieldItems(a, n) + FieldItems(b, n)))) != Choose(Tally(x))
    ensures General(back + [a, b], n) != General(back + [a + [','] + b], n)
  {
    var f := Reader(n);
    var ab := a + [','] + b;
    UnreadableTakesAll(a, b, n);
    GatherConcat(back, [a, b], f);
    GatherTwo(a, b, f);
    GatherConcat(back, [ab], f);
    GatherOne(ab, f);
    assert AllItems(back + [ab], n) == AllItems(back, n);
  }

  function BackdropFields(items: seq<Item>): seq<string> {
    FieldsFor(Backdrop(Tally(items)), NAMES, ZERO)
  }

  lemma BackdropItems(items: seq<Item>)
    ensures AllItems(BackdropFields(items), NAMES) == Backdrop(Tally(items))
  {
    NamesExpress();
    FieldsForItems(Backdrop(Tally(items)), NAMES, ZERO);
  }

  lemma JoiningChanges(a: string, b: string)
    requires !Joinable(a, b, NAMES)
    ensures !JoinedWithin(BackdropFields(FieldItems(a, NAMES) + FieldItems(b, NAMES)), a, b, [])
  {
    var items := FieldItems(a, NAMES) + FieldItems(b, NAMES);
    var back := BackdropFields(items);
    BackdropItems(items);
    ItemsAreSeen(items);
    JoiningShows(a, b, back, NAMES);
    NegotiateIsGeneral(back + [a, b]);
    NegotiateIsGeneral(back + [a + [','] + b]);
    assert back + [a, b] + [] == back + [a, b];
    assert back + [a + [','] + b] + [] == back + [a + [','] + b];
  }

  /** Two fields may be joined, or one split, beside any others without changing the outcome
      exactly if both can be read as text or neither names a coding. */
  lemma JoiningIsHarmlessExactly(a: string, b: string)
    ensures JoinedAlways(a, b) <==> Joinable(a, b, NAMES)
  {
    if Joinable(a, b, NAMES) {
      forall before: seq<string>, after: seq<string> ensures JoinedWithin(before, a, b, after) {
        JoiningFieldsChangesNothing(before, a, b, after);
      }
    } else {
      JoiningChanges(a, b);
    }
  }

  /** Joined to a byte that is not text, gzip is no longer chosen. */
  lemma JoiningCanLoseACoding()
    ensures Negotiate([NAMES.gzip, [200 as char]], NAMES).preferred == GzipCoding
    ensures Negotiate([NAMES.gzip + [','] + [200 as char]], NAMES).preferred == Identity
  {
    var b := [200 as char];
    NegotiateIsGeneral([NAMES.gzip, b]);
    NegotiateIsGeneral([NAMES.gzip + [','] + b]);
    assert !Readable(b) by { assert b[0] == 200 as char; }
    NamesExpress();
    assert NameOf(Gzip, NAMES) == NAMES.gzip;
    GzipLost(NAMES.gzip, b, NAMES);
  }

  lemma GzipLost(gzip: string, b: string, n: Names)
    requires Bare(gzip) && CodingOf(gzip, n) == Some(Gzip) && !Readable(b)
    ensures General([gzip, b], n).preferred == GzipCoding
    ensures General([gzip + [','] + b], n).preferred == Identity
  {
    GatherTwo(gzip, b, Reader(n));
    GatherOne(gzip + [','] + b, Reader(n));
    UnreadableTakesAll(gzip, b, n);
    BareItem(gzip, n);
    assert AllItems([gzip, b], n) == [Item(Gzip, 1000)];
    assert AllItems([gzip + [','] + b], n) == [];
    GzipOrNothing();
  }

  lemma GzipOrNothing()
    ensures Choose(Tally([Item(Gzip, 1000)])).preferred == GzipCoding
    ensures Choose(Tally([])).preferred == Identity
  {
    ChooseOne(Gzip);
    ChoosesTheBest(Nothing);
  }
}
