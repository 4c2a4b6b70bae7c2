/** An item priced at zero escapes Incomplete: a receipt whose parse counts as complete though quantity times unit
    amount is off by the whole total. */
module ZeroUnits {
  import opened Text
  import opened Regex
  import opened RegexTheorems
  import opened Extract
  import opened Clean
  import opened CleanTheorems
  import opened Receipt
  import opened ExtractTheorems
  import opened Lexing
  import opened MoneyTheorems
  import opened Preference
  import opened Quantities
  import M = Money

  function Amount(cents: nat): string {
    M.Render(M.Shape.Plain, cents)
  }

  // A name, a unit price of zero with a price for the line, and that price as the total.
  function ReceiptText(cents: nat): string {
    "x\n0,00 " + Amount(cents) + "\ntotal " + Amount(cents)
  }

  function PriceLine(cents: nat): string {
    "0,00 " + Amount(cents)
  }

  function TotalLine(cents: nat): string {
    "total " + Amount(cents)
  }

  function ReceiptLines(cents: nat): seq<string> {
    ["x", PriceLine(cents), TotalLine(cents)]
  }

  // Its lines.

  lemma AmountChars(cents: nat)
    ensures |Amount(cents)| >= 4 && IsDigit(Amount(cents)[0]) && IsDigit(Amount(cents)[|Amount(cents)| - 1])
    ensures forall k :: 0 <= k < |Amount(cents)| ==> IsDigit(Amount(cents)[k]) || Amount(cents)[k] == ','
  {
    var body, cc := M.Decimal(cents / 100), M.Two(cents);
    M.DecimalIs(cents / 100);
    M.TwoIs(cents);
    assert Amount(cents) == body + "," + cc;
  }

  lemma LinesAre(cents: nat)
    ensures Split(ReceiptText(cents)) == ReceiptLines(cents)
  {
    var lines := ReceiptLines(cents);
    AmountChars(cents);
    assert lines[1..] == [lines[1], lines[2]] && lines[1..][1..] == [lines[2]];
    assert Join([lines[2]]) == lines[2] && Join(lines[1..]) == lines[1] + "\n" + lines[2];
    assert Join(lines) == "x" + "\n" + (lines[1] + "\n" + lines[2]);
    assert ReceiptText(cents) == "x" + "\n" + (lines[1] + "\n" + lines[2]);
    SplitJoin(lines);
  }

  lemma SolidLine(line: string)
    requires line != "" && !IsSpace(line[0]) && !IsSpace(line[|line| - 1]) && !IsDivider(line[0])
    ensures Content([line]) == [line]
  {
    TrimSpaceIs(line);
    TrimKeepsHead(line, IsDivider);
    ContentOne(line);
  }

  lemma LinesAreContent(cents: nat)
    ensures Content(ReceiptLines(cents)) == ReceiptLines(cents)
  {
    var lines := ReceiptLines(cents);
    AmountChars(cents);
    SolidLine(lines[0]);
    SolidLine(lines[1]);
    SolidLine(lines[2]);
    ContentConcat([lines[0]], [lines[1]]);
    ContentConcat([lines[0]] + [lines[1]], [lines[2]]);
    assert lines == [lines[0]] + [lines[1]] + [lines[2]];
  }

  // The name.

  lemma NothingReplaced(r: Re, s: string, repl: string)
    requires Find(r, s, 0) == NotFound
    ensures ReplaceAll(r, s, repl, 0) == s
  {
  }

  lemma BarcodeHasDigit()
    ensures MustHit(BARCODE, IsDigit)
  {
    assert MustHit(D, IsDigit);
    assert MustHit(DD, IsDigit);
  }

  // What is needed of the patterns here.
  ghost predicate Keyed(lx: Lexicon) {
    Wordy(lx) && MustHit(lx.total, KeyLetter) && MustHit(lx.barcode, IsDigit)
  }

  lemma PatternsAreKeyed(letters: Letters)
    ensures Keyed(Patterns(letters))
  {
    PatternsAreWordy(letters);
    TotalHasLetter();
    BarcodeHasDigit();
  }

  // A line without a letter that a keyword begins with is no meta, payment or total line.
  lemma NoKeyword(lx: Lexicon, line: string)
    requires Keyed(lx) && forall k :: 0 <= k < |line| ==> !KeyLetter(line[k])
    ensures !MatchString(lx.meta, line) && !MatchString(lx.pay, line) && !MatchString(lx.total, line)
  {
    NotFoundWithout(lx.meta, line, 0, KeyLetter);
    NotFoundWithout(lx.pay, line, 0, KeyLetter);
    NotFoundWithout(lx.total, line, 0, KeyLetter);
  }

  lemma NameIsProduct(lx: Lexicon, name: string)
    requires Keyed(lx) && name == "x"
    ensures ProductName(lx, name) == name
  {
    NotFoundWithout(lx.barcode, name, 0, IsDigit);
    NothingReplaced(lx.barcode, name, "");
    TrimSpaceIs(name);
  }

  lemma NameLine(lx: Lexicon, name: string)
    requires Keyed(lx) && name == "x"
    ensures LineOf(lx, name) == Line.Product(name)
  {
    NoKeyword(lx, name);
    NoAmounts(lx, name);
    assert lx.letters(name[0]);
    NameIsProduct(lx, name);
  }

  // The price line.

  predicate PriceChar(c: char) {
    IsDigit(c) || c == ',' || c == ' '
  }

  lemma PriceChars(cents: nat)
    ensures forall k :: 0 <= k < |PriceLine(cents)| ==> PriceChar(PriceLine(cents)[k])
  {
    AmountChars(cents);
    forall k | 0 <= k < |PriceLine(cents)| ensures PriceChar(PriceLine(cents)[k]) {
      if k >= 5 { assert PriceLine(cents)[k] == Amount(cents)[k - 5]; }
    }
  }

  lemma Nothing()
    ensures Amount(0) == "0,00" && M.Worth(0) == Some(0.0)
  {
  }

  function Prices(cents: nat): seq<Piece> {
    [Piece("", M.Shape.Plain, 0), Piece(" ", M.Shape.Plain, cents)]
  }

  lemma PricesWritten(cents: nat)
    requires M.Worth(cents).Some?
    ensures Write(Prices(cents), "") == PriceLine(cents) && Amounted(Prices(cents)) == [0.0, M.Worth(cents).value]
    ensures Spaced(Prices(cents), "")
  {
    var pieces := Prices(cents);
    Nothing();
    assert pieces[1..] == [pieces[1]] && pieces[1..][1..] == [];
    assert Write(pieces[1..], "") == " " + Amount(cents) + Write(pieces[1..][1..], "");
    assert Amounted(pieces[1..]) == [M.Worth(cents).value] + Amounted(pieces[1..][1..]);
  }

  lemma PriceAmounts(letters: Letters, cents: nat)
    requires M.Worth(cents).Some?
    ensures ParseAmounts(Patterns(letters), PriceLine(cents)) == [0.0, M.Worth(cents).value]
  {
    PricesWritten(cents);
    AmountsRoundTrip(letters, Prices(cents), "");
  }

  lemma UnitHit()
    ensures MustHit(QTY_INLINE, UnitChar)
  {
    assert MustHit(TIMES, UnitChar) by {
      forall c ensures InClass(OneOf("x×*"), c) ==> UnitChar(c) { MarksAre(c); }
    }
    WordMust("un"); WordMust("unid"); WordMust("pc");
    UnitsAre();
    InlineHit(QTY_UNIT);
  }

  lemma InlineHit(unit: Re)
    requires MustHit(unit, UnitChar)
    ensures MustHit(Cat(Edge, Cat(Group(NUMBER), Cat(Star(S), Cat(unit, Edge)))), UnitChar)
  {
    assert MustHit(Cat(unit, Edge), UnitChar);
    assert MustHit(Cat(Star(S), Cat(unit, Edge)), UnitChar);
  }

  // What a unit begins with.
  predicate UnitChar(c: char) {
    c == '×' || c == '*' || 'a' <= Fold(c) <= 'z'
  }

  lemma WordMust(w: string)
    requires w != "" && 'a' <= Fold(w[0]) <= 'z'
    ensures MustHit(Word(w), UnitChar)
  {
    assert MustHit(Chr(Lit(w[0])), UnitChar);
  }

  // No quantity is read from such a line, nor taken away from it.

  lemma AbsentIf(r: Re, s: string, p: char -> bool)
    requires forall k :: 0 <= k < |s| ==> !p(s[k])
    ensures MustHit(r, p) ==> Find(r, s, 0) == NotFound
  {
    if MustHit(r, p) { NotFoundWithout(r, s, 0, p); }
  }

  lemma PriceIsNoUnit(c: char)
    requires PriceChar(c)
    ensures !UnitChar(c)
  {
  }

  lemma NoUnit(s: string)
    requires forall k :: 0 <= k < |s| ==> PriceChar(s[k])
    ensures Find(QTY_INLINE, s, 0) == NotFound
  {
    forall k | 0 <= k < |s| ensures !UnitChar(s[k]) { PriceIsNoUnit(s[k]); }
    AbsentIf(QTY_INLINE, s, UnitChar);
    UnitHit();
  }

  lemma NoMarkAtAll(s: string)
    requires forall k :: 0 <= k < |s| ==> PriceChar(s[k])
    ensures Find(QTY_TIMES, s, 0) == NotFound
  {
    TimesAbsent(s, |s|);
  }

  lemma NoQuantity(s: string)
    requires s != "" && forall k :: 0 <= k < |s| ==> PriceChar(s[k])
    ensures Find(QTY_PREFIX, s, 0) == NotFound && Find(QTY_TIMES, s, 0) == NotFound
    ensures Find(QTY_INLINE, s, 0) == NotFound
  {
    assert Find(QTY_PREFIX, s, 0) == NotFound by {
      StartsOtherwise(s);
      PrefixAbsent(s);
    }
    NoMarkAtAll(s);
    NoUnit(s);
  }

  lemma QuantityIsOne(lx: Lexicon, s: string)
    requires Find(lx.qtyPrefix, s, 0) == NotFound && Find(lx.qtyTimes, s, 0) == NotFound
    requires Find(lx.qtyInline, s, 0) == NotFound
    ensures Quantity(lx, s) == 1.0
  {
  }

  // Where no currency sign stands before it, an amount is found where it starts.

  predicate IsR(c: char) {
    Fold(c) == 'r'
  }

  lemma AmountStart(s: string, st: nat, m: Match)
    requires st <= |s| && forall k :: st <= k < |s| ==> !IsR(s[k])
    requires m in Run(BR_MONEY, s, Match(st, st, st))
    ensures m.from == st
  {
    var m0 := Match(st, st, st);
    var m1 := CatInv(Opt(CURRENCY), Group(AMOUNT), s, m0, m);
    if m1 in Run(CURRENCY, s, m0) {
      assert MustHit(CURRENCY, IsR);
      MustHitHits(CURRENCY, s, m0, m1, IsR);
    }
    var m2 := CaptureInv(m1.pos, s, Run(AMOUNT, s, m1), m);
  }

  lemma AmountReplaced(s: string, i: nat, b: nat, e: nat)
    requires i <= b && Quiet(s, i, b) && ReadsTo(s, b, e) && forall k :: 0 <= k < |s| ==> !IsR(s[k])
    ensures ReplaceAll(BR_MONEY, s, " ", i) == s[i..b] + " " + ReplaceAll(BR_MONEY, s, " ", e)
  {
    FindsAmount(s, i, b, e);
    FindIs(BR_MONEY, s, i);
    var f := Find(BR_MONEY, s, i);
    AmountStart(s, f.start, f.m);
  }

  lemma PriceReads(cents: nat)
    ensures var s := PriceLine(cents);
      Quiet(s, 0, 0) && ReadsTo(s, 0, 4) && Quiet(s, 4, 5) && ReadsTo(s, 5, |s|)
  {
    var s := PriceLine(cents);
    Nothing();
    AmountChars(cents);
    RenderRead(M.Shape.Plain, 0, s, 0);
    assert s[5..] == Amount(cents);
    assert PartOf(Amount(cents), s, 5) by { assert forall k :: 0 <= k < |Amount(cents)| ==> s[5 + k] == s[5..][k]; }
    RenderRead(M.Shape.Plain, cents, s, 5);
  }

  lemma PriceStripped(cents: nat)
    ensures ReplaceAll(BR_MONEY, PriceLine(cents), " ", 0) == "   "
  {
    var s := PriceLine(cents);
    PriceReads(cents);
    PriceChars(cents);
    AmountReplaced(s, 0, 0, 4);
    AmountReplaced(s, 4, 5, |s|);
    assert Find(BR_MONEY, s, |s|) == NotFound by { NothingFound(s, |s|); }
    assert s[|s|..] == "" && s[0..0] == "" && s[4..5] == " ";
  }

  lemma SpacesAreNoName()
    ensures TrimSpace(JoinWords(Fields(Replace("   ", '=', ' '), ""))) == ""
  {
    assert Replace("   ", '=', ' ') == "   ";
    assert "   "[1..] == "  " && "  "[1..] == " " && " "[1..] == "";
    assert Fields(" ", "") == Fields("", "") == [];
    assert Fields("   ", "") == Fields("  ", "") == [];
  }

  lemma NoName(letters: Letters, cents: nat)
    ensures OwnDesc(Patterns(letters), PriceLine(cents)) == ""
  {
    var s := "   ";
    PriceStripped(cents);
    NoQuantity(s);
    NothingReplaced(QTY_PREFIX, s, " ");
    NothingReplaced(QTY_TIMES, s, " ");
    NothingReplaced(QTY_INLINE, s, " ");
    SpacesAreNoName();
  }

  lemma MoneyLineIs(lx: Lexicon, line: string)
    requires !MatchString(lx.meta, line) && ParseAmounts(lx, line) != []
    ensures LineOf(lx, line) ==
        Line.Money(ParseAmounts(lx, line), MatchString(lx.total, line), Quantity(lx, line), OwnDesc(lx, line))
  {
  }

  // What Parse makes of the price line.
  predicate PriceRead(lx: Lexicon, line: string, v: real) {
    ParseAmounts(lx, line) == [0.0, v] && Quantity(lx, line) == 1.0 && OwnDesc(lx, line) == ""
  }

  lemma PriceIsRead(letters: Letters, cents: nat)
    requires M.Worth(cents).Some?
    ensures PriceRead(Patterns(letters), PriceLine(cents), M.Worth(cents).value)
  {
    PriceChars(cents);
    PriceAmounts(letters, cents);
    NoQuantity(PriceLine(cents));
    QuantityIsOne(Patterns(letters), PriceLine(cents));
    NoName(letters, cents);
  }

  lemma PricedLine(lx: Lexicon, line: string, v: real)
    ensures PriceRead(lx, line, v) && !MatchString(lx.meta, line) && !MatchString(lx.total, line) ==>
              LineOf(lx, line) == Line.Money([0.0, v], false, 1.0, "")
  {
    if PriceRead(lx, line, v) && !MatchString(lx.meta, line) && !MatchString(lx.total, line) { MoneyLineIs(lx, line); }
  }

  lemma PriceIsNoKeyword(lx: Lexicon, cents: nat)
    requires Keyed(lx)
    ensures !MatchString(lx.meta, PriceLine(cents)) && !MatchString(lx.total, PriceLine(cents))
  {
    PriceChars(cents);
    NoKeyword(lx, PriceLine(cents));
  }

  lemma PriceLineIs(lx: Lexicon, cents: nat, v: real)
    requires Keyed(lx) && PriceRead(lx, PriceLine(cents), v)
    ensures LineOf(lx, PriceLine(cents)) == Line.Money([0.0, v], false, 1.0, "")
  {
    PriceIsNoKeyword(lx, cents);
    PricedLine(lx, PriceLine(cents), v);
  }

  // The total line.

  lemma {:induction false} AnyFails(rs: seq<Re>, s: string, m: Match)
    requires rs != [] && m.pos <= |s| && forall k :: 0 <= k < |rs| ==> Run(rs[k], s, m) == []
    ensures Run(AnyOf(rs), s, m) == []
  {
    if |rs| > 1 { AnyFails(rs[1..], s, m); }
  }

  lemma WordFails(w: string, s: string)
    requires w != "" && s != "" && Fold(s[0]) != Fold(w[0])
    ensures Run(Word(w), s, Match(0, 0, 0)) == []
  {
    OtherLetter(w, s, 0);
    WordRun(w, s, Match(0, 0, 0));
  }

  // Only c and i begin a meta line.
  lemma NoMetaWord(s: string)
    requires s != "" && Fold(s[0]) != 'c' && Fold(s[0]) != 'i'
    ensures !MatchString(META_LINE, s)
  {
    var m := Match(0, 0, 0);
    WordFails("cnpj", s); WordFails("cpf", s); WordFails("cnpj/cpf", s); WordFails("ie", s); WordFails("im", s);
    WordFails("inscri", s);
    CatFails(Word("inscri"), Cat(Chr(OneOf("cç")), Cat(Chr(OneOf("aã")), Word("o"))), s, m);
    AnyFails(META_WORDS, s, m);
    CatFails(AnyOf(META_WORDS), Edge, s, m);
    BolFails(Cat(AnyOf(META_WORDS), Edge), s);
  }

  lemma TotalSpelled(cents: nat)
    ensures SpelledAt("total", TotalLine(cents), 0) && WordAt(TotalLine(cents), 0)
    ensures WordAt(TotalLine(cents), 4) && !WordAt(TotalLine(cents), 5)
  {
    var s := TotalLine(cents);
    assert s[..6] == "total ";
    forall k | 0 <= k < 5 ensures s[0 + k] == "total"[k] { assert s[k] == s[..6][k]; }
    assert s[5] == s[..6][5];
  }

  lemma SaysTotal(s: string)
    requires SpelledAt("total", s, 0) && WordAt(s, 0) && WordAt(s, 4) && !WordAt(s, 5)
    ensures MatchString(TOTAL_LINE, s)
  {
    var m, m' := Match(0, 0, 0), Match(5, 0, 0);
    WordEdgeFirst("total", s, m);
    assert AnyOf(TOTAL_WORDS) == Alt(TOTAL_WORDS[0], AnyOf(TOTAL_WORDS[1..]));
    AltFirstThen(Word("total"), AnyOf(TOTAL_WORDS[1..]), Edge, s, m, m');
    EdgeFirst(s, m);
    CatFirst(Edge, Cat(AnyOf(TOTAL_WORDS), Edge), s, m, m, m');
    FindAt(TOTAL_LINE, s, 0, 0);
  }

  lemma TotalAmounts(letters: Letters, cents: nat)
    requires M.Worth(cents).Some?
    ensures ParseAmounts(Patterns(letters), TotalLine(cents)) == [M.Worth(cents).value]
  {
    AmountRoundTrip(letters, "total ", M.Shape.Plain, cents, "");
    assert "total " + Amount(cents) + "" == TotalLine(cents);
  }

  // What Parse makes of the total line.
  predicate TotalRead(lx: Lexicon, line: string, v: real) {
    !MatchString(lx.meta, line) && ParseAmounts(lx, line) == [v] && MatchString(lx.total, line)
  }

  lemma TotalIsRead(letters: Letters, cents: nat)
    requires M.Worth(cents).Some?
    ensures TotalRead(Patterns(letters), TotalLine(cents), M.Worth(cents).value)
  {
    var line := TotalLine(cents);
    assert line[0] == 't';
    NoMetaWord(line);
    TotalAmounts(letters, cents);
    TotalSpelled(cents);
    SaysTotal(line);
  }

  // The parse.

  lemma {:induction false} LinesSnoc(lx: Lexicon, lines: seq<string>, line: string)
    ensures LinesOf(lx, lines + [line]) == LinesOf(lx, lines) + [LineOf(lx, line)]
  {
    assert (lines + [line])[..|lines|] == lines;
  }

  lemma AdvanceSnoc(lines: seq<Line>, l: Line)
    ensures AdvanceAll(lines + [l]) == Advance(AdvanceAll(lines), l)
  {
    assert (lines + [l])[..|lines|] == lines;
  }

  lemma ScanOfThree(lx: Lexicon, text: string, a: string, b: string, c: string)
    requires Wordy(lx) && Content(Split(text)) == [a, b, c]
    ensures ScanAll(lx, START, Split(text)) ==
        Advance(Advance(Advance(START, LineOf(lx, a)), LineOf(lx, b)), LineOf(lx, c))
  {
    ScanIsContent(lx, START, Split(text));
    ScanIsAdvance(lx, [a, b, c]);
    assert [a, b, c] == [] + [a] + [b] + [c];
    LinesSnoc(lx, [], a);
    LinesSnoc(lx, [] + [a], b);
    LinesSnoc(lx, [] + [a] + [b], c);
    AdvanceSnoc(LinesOf(lx, []), LineOf(lx, a));
    AdvanceSnoc(LinesOf(lx, [] + [a]), LineOf(lx, b));
    AdvanceSnoc(LinesOf(lx, [] + [a] + [b]), LineOf(lx, c));
  }

  function ZeroItem(v: real): Item {
    Item("x", 1.0, 0.0, v)
  }

  lemma ScanIsOneItem(lx: Lexicon, cents: nat, v: real)
    requires Keyed(lx) && PriceRead(lx, PriceLine(cents), v) && TotalRead(lx, TotalLine(cents), v)
    ensures ScanAll(lx, START, Split(ReceiptText(cents))) == Scan([ZeroItem(v)], v, true, "", false)
  {
    var name := "x";
    LinesAre(cents);
    LinesAreContent(cents);
    ScanOfThree(lx, ReceiptText(cents), name, PriceLine(cents), TotalLine(cents));
    NameLine(lx, name);
    PriceLineIs(lx, cents, v);
    MoneyLineIs(lx, TotalLine(cents));
    var st := Advance(START, Line.Product(name));
    assert st.items + [ZeroItem(v)] == [ZeroItem(v)];
  }

  lemma CentsStay(cents: nat)
    ensures Round2(cents as real / 100.0) == cents as real / 100.0
  {
    Round2IsNearest(cents as real / 100.0, cents);
  }

  lemma OneItemSums(v: real)
    requires v > 0.0
    ensures Computed([ZeroItem(v)]) == v && TimesSum([ZeroItem(v)]) == 0.0
  {
    assert [ZeroItem(v)][..0] == [];
  }

  lemma OneItemEscapes(r: Result, v: real)
    requires v > 0.0 && r == Result([ZeroItem(v)], v, v, true)
    ensures !IncompleteSpec(r) && Abs(TimesSum(r.items) - r.estimatedTotal) == v
  {
    OneItemSums(v);
  }

  // What Parse makes of the receipt, line by line.
  ghost predicate ReceiptRead(lx: Lexicon, cents: nat, v: real) {
    Keyed(lx) && PriceRead(lx, PriceLine(cents), v) && TotalRead(lx, TotalLine(cents), v)
  }

  lemma ReceiptIsRead(letters: Letters, cents: nat, v: real)
    requires M.Worth(cents) == Some(v)
    ensures ReceiptRead(Patterns(letters), cents, v)
  {
    PatternsAreKeyed(letters);
    PriceIsRead(letters, cents);
    TotalIsRead(letters, cents);
  }

  lemma ScanGives(lx: Lexicon, text: string, v: real)
    requires ScanAll(lx, START, Split(text)) == Scan([ZeroItem(v)], v, true, "", false) && v > 0.0 && Round2(v) == v
    ensures ParseSpec(lx, text) == Result([ZeroItem(v)], v, v, true)
  {
    OneItemSums(v);
  }

  lemma ReceiptGives(lx: Lexicon, cents: nat, v: real)
    requires cents > 0 && v == cents as real / 100.0
    ensures ReceiptRead(lx, cents, v) ==> ParseSpec(lx, ReceiptText(cents)) == Result([ZeroItem(v)], v, v, true)
  {
    if ReceiptRead(lx, cents, v) {
      ScanIsOneItem(lx, cents, v);
      CentsStay(cents);
      ScanGives(lx, ReceiptText(cents), v);
    }
  }

  lemma WorthIs(cents: nat)
    requires cents < 100 * TOO_LARGE
    ensures M.Worth(cents) == Some(cents as real / 100.0)
  {
  }

  /** A unit amount of zero escapes Incomplete: for every positive price a float64 can hold, the parse of this
      text counts as complete, and the sum of quantity times unit amount is off by the whole price. */
  lemma ZeroUnitEscapes(letters: Letters, cents: nat) returns (r: Result)
    requires 0 < cents < 100 * TOO_LARGE
    ensures r == ParseSpec(Patterns(letters), ReceiptText(cents))
    ensures !IncompleteSpec(r) && Abs(TimesSum(r.items) - r.estimatedTotal) == cents as real / 100.0
  {
    var v := cents as real / 100.0;
    r := Result([ZeroItem(v)], v, v, true);
    WorthIs(cents);
    ReceiptIsRead(letters, cents, v);
    ReceiptGives(Patterns(letters), cents, v);
    OneItemEscapes(r, v);
  }
}
