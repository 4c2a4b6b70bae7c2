/** What Parse reads: only the lines that carry something, so cleaning the text first changes nothing. */
module ExtractTheorems {
  import opened Text
  import opened Regex
  import opened RegexTheorems
  import opened Extract
  import opened Clean
  import opened CleanTheorems
  import Lexing
  import opened Receipt

  // A letter as the keywords of the line patterns begin with, under case folding: none begins with x.
  predicate KeyLetter(c: char) {
    'a' <= Fold(c) <= 'z' && Fold(c) != 'x'
  }

  lemma {:induction false} WordHits(w: string)
    requires w != "" && KeyLetter(w[0])
    ensures MustHit(Word(w), KeyLetter)
  {
    if |w| > 1 { assert MustHit(Chr(Lit(w[0])), KeyLetter); }
  }

  lemma {:induction false} AnyHits(rs: seq<Re>, p: char -> bool)
    requires rs != [] && forall k :: 0 <= k < |rs| ==> MustHit(rs[k], p)
    ensures MustHit(AnyOf(rs), p)
  {
    if |rs| > 1 { AnyHits(rs[1..], p); }
  }

  lemma InscricaoHasLetter()
    ensures MustHit(INSCRICAO, KeyLetter)
  {
    WordHits("inscri");
  }

  /** Every match of the line patterns contains a letter, other than x. */
  lemma MetaHasLetter()
    ensures MustHit(META_LINE, KeyLetter)
  {
    WordHits("cnpj"); WordHits("cpf"); WordHits("cnpj/cpf"); WordHits("ie"); WordHits("im");
    InscricaoHasLetter();
    AnyHits(META_WORDS, KeyLetter);
  }

  lemma PayHasLetter()
    ensures MustHit(PAY_LINE, KeyLetter)
  {
    WordHits("forma"); WordHits("pagamento"); WordHits("cart"); WordHits("dinheiro"); WordHits("pix");
    assert MustHit(Cat(Word("pix"), Edge), KeyLetter);
    AnyHits(PAY_WORDS, KeyLetter);
  }

  lemma TotalHasLetter()
    ensures MustHit(TOTAL_LINE, KeyLetter)
  {
    WordHits("total"); WordHits("valor"); WordHits("amount");
    AnyHits(TOTAL_WORDS, KeyLetter);
  }

  // What the proofs need to know about the patterns.
  ghost predicate Wordy(lx: Lexicon) {
    MustHit(lx.meta, KeyLetter) && MustHit(lx.pay, KeyLetter) && MustHit(lx.money, IsDigit)
  }

  /** The patterns of extract.go: every match of a line pattern contains a letter and every amount a digit. */
  lemma PatternsAreWordy(letters: Letters)
    ensures Wordy(Patterns(letters))
  {
    MetaHasLetter();
    PayHasLetter();
    Lexing.MoneyHasDigit();
  }

  lemma DividerChars(c: char)
    requires IsDivider(c)
    ensures !KeyLetter(c) && !IsDigit(c) && forall letters: Letters :: !letters(c)
  {
  }

  lemma SeparatorIsDividers(line: string)
    requires IsSeparatorLine(line)
    ensures forall k :: 0 <= k < |line| ==> IsDivider(line[k])
  {
    TrimLeftIs(line, IsDivider);
    TrimRightIs(TrimLeft(line, IsDivider), IsDivider);
  }

  lemma NoAmounts(lx: Lexicon, line: string)
    requires Wordy(lx) && forall k :: 0 <= k < |line| ==> !IsDigit(line[k])
    ensures ParseAmounts(lx, line) == []
  {
    NotFoundWithout(lx.money, line, 0, IsDigit);
  }

  // A separator leaves every part of the loop's state as it is.
  lemma SeparatorSkipped(lx: Lexicon, st: Scan, line: string)
    requires Wordy(lx) && IsSeparatorLine(line)
    ensures ScanLine(lx, st, line) == st
  {
    SeparatorIsDividers(line);
    forall k | 0 <= k < |line|
      ensures !KeyLetter(line[k]) && !IsDigit(line[k]) && !lx.letters(line[k])
    {
      DividerChars(line[k]);
    }
    NotFoundWithout(lx.meta, line, 0, KeyLetter);
    NotFoundWithout(lx.pay, line, 0, KeyLetter);
    NoAmounts(lx, line);
  }

  function ScanContent(lx: Lexicon, st: Scan, lines: seq<string>): Scan
    decreases |lines|
  {
    if lines == [] then st else ScanContent(lx, ScanLine(lx, st, lines[0]), lines[1..])
  }

  function ScanStep(lx: Lexicon, st: Scan, raw: string): Scan {
    if TrimSpace(raw) == "" then st else ScanLine(lx, st, TrimSpace(raw))
  }

  lemma ScanOne(lx: Lexicon, st: Scan, raw: string)
    requires Wordy(lx)
    ensures ScanContent(lx, st, Content([raw])) == ScanStep(lx, st, raw)
  {
    ContentOne(raw);
    var line := TrimSpace(raw);
    if IsBlank(raw) {
    } else if IsSep(raw) {
      SeparatorSkipped(lx, st, line);
    } else {
      assert [line][0] == line && [line][1..] == [];
      assert ScanContent(lx, ScanLine(lx, st, line), []) == ScanLine(lx, st, line);
    }
  }

  lemma {:induction false} ScanConcat(lx: Lexicon, st: Scan, a: seq<string>, b: seq<string>)
    ensures ScanContent(lx, st, a + b) == ScanContent(lx, ScanContent(lx, st, a), b)
    decreases |a|
  {
    if a == [] {
      assert a + b == b;
    } else {
      assert (a + b)[0] == a[0] && (a + b)[1..] == a[1..] + b;
      ScanConcat(lx, ScanLine(lx, st, a[0]), a[1..], b);
    }
  }

  lemma {:induction false} ScanIsContent(lx: Lexicon, st: Scan, lines: seq<string>)
    requires Wordy(lx)
    ensures ScanAll(lx, st, lines) == ScanContent(lx, st, Content(lines))
    decreases |lines|
  {
    if lines != [] {
      var next := ScanStep(lx, st, lines[0]);
      assert ScanAll(lx, st, lines) == ScanAll(lx, next, lines[1..]);
      ScanIsContent(lx, next, lines[1..]);
      ScanOne(lx, st, lines[0]);
      ScanConcat(lx, st, Content([lines[0]]), Content(lines[1..]));
      ContentConcat([lines[0]], lines[1..]);
      assert lines == [lines[0]] + lines[1..];
    }
  }

  /** Parse depends only on the lines that carry something. */
  lemma ParseReadsContent(lx: Lexicon, a: string, b: string)
    requires Wordy(lx) && Content(Split(a)) == Content(Split(b))
    ensures ParseSpec(lx, a) == ParseSpec(lx, b)
  {
    ScanIsContent(lx, START, Split(a));
    ScanIsContent(lx, START, Split(b));
  }

  /** CleanText does not change what Parse sees: for every text, parsing the cleaned text is parsing the
      text without its fences. */
  lemma CleanPreservesParse(lx: Lexicon, s: string)
    requires Wordy(lx)
    ensures ParseSpec(lx, CleanSpec(s)) == ParseSpec(lx, TrimFences(s))
  {
    CleanKeepsContent(s);
    ParseReadsContent(lx, CleanSpec(s), TrimFences(s));
  }

  /** So it is with the patterns of extract.go, whatever the letters beyond ASCII are. */
  lemma CleanPreservesGoParse(letters: Letters, s: string)
    ensures ParseSpec(Patterns(letters), CleanSpec(s)) == ParseSpec(Patterns(letters), TrimFences(s))
  {
    PatternsAreWordy(letters);
    CleanPreservesParse(Patterns(letters), s);
  }

  // How Parse reads one line.

  function LineOf(lx: Lexicon, line: string): Line {
    if MatchString(lx.meta, line) then Meta
    else
      var amounts := ParseAmounts(lx, line);
      if amounts != [] then Money(amounts, MatchString(lx.total, line), Quantity(lx, line), OwnDesc(lx, line))
      else if MatchString(lx.pay, line) then Pay(line)
      else if HasLetter(lx, line) then Product(ProductName(lx, line))
      else Plain
  }

  function LinesOf(lx: Lexicon, lines: seq<string>): seq<Line> {
    if lines == [] then [] else LinesOf(lx, lines[..|lines| - 1]) + [LineOf(lx, lines[|lines| - 1])]
  }

  lemma ScanMoneyLine(lx: Lexicon, st: Scan, line: string, l: Line)
    requires l == LineOf(lx, line) && l.Money?
    ensures ScanLine(lx, st, line) == Advance(st, l)
  {
    assert l.amounts == ParseAmounts(lx, line) && l.saysTotal == MatchString(lx.total, line);
    if !(l.saysTotal || st.pendingPay) {
      assert ScanLine(lx, st, line).items == st.items + [ItemFromLine(lx, line, l.amounts, st.pendingDesc)];
      assert ItemOf(l, st.pendingDesc) == ItemFromLine(lx, line, l.amounts, st.pendingDesc);
    }
  }

  lemma ScanOtherLine(lx: Lexicon, st: Scan, line: string)
    requires !LineOf(lx, line).Money?
    ensures ScanLine(lx, st, line) == Advance(st, LineOf(lx, line))
  {
  }

  lemma ScanLineIs(lx: Lexicon, st: Scan, line: string)
    ensures ScanLine(lx, st, line) == Advance(st, LineOf(lx, line))
  {
    if LineOf(lx, line).Money? {
      ScanMoneyLine(lx, st, line, LineOf(lx, line));
    } else {
      ScanOtherLine(lx, st, line);
    }
  }

  lemma {:induction false} ScanSnoc(lx: Lexicon, st: Scan, lines: seq<string>, line: string)
    ensures ScanContent(lx, st, lines + [line]) == ScanLine(lx, ScanContent(lx, st, lines), line)
    decreases |lines|
  {
    if lines == [] {
      assert lines + [line] == [line] && [line][1..] == [];
      assert ScanContent(lx, ScanLine(lx, st, line), []) == ScanLine(lx, st, line);
    } else {
      assert (lines + [line])[0] == lines[0] && (lines + [line])[1..] == lines[1..] + [line];
      ScanSnoc(lx, ScanLine(lx, st, lines[0]), lines[1..], line);
    }
  }

  lemma {:induction false} ScanIsAdvance(lx: Lexicon, lines: seq<string>)
    ensures ScanContent(lx, START, lines) == AdvanceAll(LinesOf(lx, lines))
  {
    if lines != [] {
      var front, line := lines[..|lines| - 1], lines[|lines| - 1];
      assert lines == front + [line];
      ScanIsAdvance(lx, front);
      ScanSnoc(lx, START, front, line);
      ScanLineIs(lx, ScanContent(lx, START, front), line);
      var all := LinesOf(lx, lines);
      assert all[..|all| - 1] == LinesOf(lx, front);
    }
  }

  // The lines of a text that carry something, as Parse reads them.
  function Lines(lx: Lexicon, text: string): seq<Line> {
    LinesOf(lx, Content(Split(text)))
  }

  /** What Parse makes of a text: every line with an amount that is not a meta line gives one item or sets
      the total, never both, and no other line does; the last total set is the estimate, and without one
      the two totals agree. */
  lemma ParseIs(lx: Lexicon, text: string)
    requires Wordy(lx)
    ensures var lines, r := Lines(lx, text), ParseSpec(lx, text);
      && ItemsAre(lines, ItemLines(lines, |lines|), r.items)
      && (r.foundTotal <==> exists k :: 0 <= k < |lines| && GivesTotal(lines, k))
      && r.computedItemsTotal == Round2(Computed(r.items))
      && r.estimatedTotal ==
          match TotalBefore(lines, |lines|) { case Some(v) => Round2(v) case None => r.computedItemsTotal }
  {
    ScanIsContent(lx, START, Split(text));
    ScanIsAdvance(lx, Content(Split(text)));
    AdvanceIs(Lines(lx, text));
  }

  lemma {:induction false} AmountsAreNatural(groups: seq<string>)
    ensures AllNatural(Amounts(groups))
  {
    if groups != [] {
      AmountsAreNatural(groups[1..]);
    }
  }

  lemma SubmatchIsNatural(r: Re, line: string)
    ensures Submatch(r, line).Some? ==> Submatch(r, line).value >= 0.0
  {
  }

  lemma QtyIsNatural(lx: Lexicon, line: string)
    ensures ParseQty(lx, line) >= 0.0
  {
    SubmatchIsNatural(lx.qtyPrefix, line);
    SubmatchIsNatural(lx.qtyTimes, line);
    SubmatchIsNatural(lx.qtyInline, line);
  }

  lemma LineIsPlausible(lx: Lexicon, line: string)
    ensures PlausibleLine(LineOf(lx, line))
  {
    var l := LineOf(lx, line);
    if l.Money? {
      QtyIsNatural(lx, line);
      AmountsAreNatural(FindAll(lx.money, line, 0));
      assert l.amounts == ParseAmounts(lx, line);
    }
  }

  lemma {:induction false} LinesArePlausible(lx: Lexicon, lines: seq<string>)
    ensures forall k :: 0 <= k < |LinesOf(lx, lines)| ==> PlausibleLine(LinesOf(lx, lines)[k])
  {
    if lines != [] {
      LinesArePlausible(lx, lines[..|lines| - 1]);
      LineIsPlausible(lx, lines[|lines| - 1]);
    }
  }

  lemma ParsePlausible(lx: Lexicon, text: string)
    requires Wordy(lx)
    ensures var r := ParseSpec(lx, text);
      r.computedItemsTotal == Round2(Computed(r.items)) && forall k :: 0 <= k < |r.items| ==> Plausible(r.items[k])
  {
    var lines := Lines(lx, text);
    ParseIs(lx, text);
    LinesArePlausible(lx, Content(Split(text)));
    ItemsArePlausible(lines, ItemLines(lines, |lines|), ParseSpec(lx, text).items);
  }

  /** The errors add up to no more than five cents a line, five more for the total and half a cent for
      rounding, whenever Parse calls its own result complete. */
  lemma CompleteParseBound(lx: Lexicon, text: string)
    requires Wordy(lx)
    ensures var r := ParseSpec(lx, text);
      !IncompleteSpec(r) ==> Abs(PricedSum(r.items) - r.estimatedTotal) <= LINE_DELTA * (|r.items| + 1) as real + 0.005
  {
    ParsePlausible(lx, text);
    if !IncompleteSpec(ParseSpec(lx, text)) { CompleteBound(ParseSpec(lx, text)); }
  }

  /** Exactly when every item of a complete result agrees with its line: when none is priced at zero with more
      than five cents on its line, the case inconsistentLine lets pass. */
  lemma ItemsAgreeIff(lx: Lexicon, text: string)
    requires Wordy(lx)
    ensures var items := ParseSpec(lx, text).items;
      !IncompleteSpec(ParseSpec(lx, text)) ==>
        ((forall k :: 0 <= k < |items| ==> TimesAgrees(items[k])) <==>
         (forall k :: 0 <= k < |items| ==> PricedOrSmall(items[k])))
  {
    var r := ParseSpec(lx, text);
    ParsePlausible(lx, text);
    if !IncompleteSpec(r) {
      forall k | 0 <= k < |r.items| ensures TimesAgrees(r.items[k]) <==> PricedOrSmall(r.items[k]) {
        assert !WeakItem(r.items[k]);
        TimesAgreesIff(r.items[k]);
      }
    }
  }

  /** What is left out of the sum of quantity times unit amount is exactly what the items priced at zero cost:
      with it added, the bound holds for every complete result. */
  lemma CompleteTimesGap(lx: Lexicon, text: string)
    requires Wordy(lx)
    ensures var r := ParseSpec(lx, text);
      && PricedSum(r.items) - TimesSum(r.items) == ZeroUnitSum(r.items)
      && (!IncompleteSpec(r) ==>
            Abs(TimesSum(r.items) + ZeroUnitSum(r.items) - r.estimatedTotal)
            <= LINE_DELTA * (|r.items| + 1) as real + 0.005)
  {
    ParsePlausible(lx, text);
    PricedGap(ParseSpec(lx, text).items);
    CompleteParseBound(lx, text);
  }

  /** With every unit amount positive, that is the sum of quantity times unit amount. */
  lemma CompleteTimesBound(lx: Lexicon, text: string)
    requires Wordy(lx)
    ensures var r := ParseSpec(lx, text);
      !IncompleteSpec(r) && (forall k :: 0 <= k < |r.items| ==> r.items[k].unitAmount > 0.0) ==>
        Abs(TimesSum(r.items) - r.estimatedTotal) <= LINE_DELTA * (|r.items| + 1) as real + 0.005
  {
    var r := ParseSpec(lx, text);
    CompleteParseBound(lx, text);
    if forall k :: 0 <= k < |r.items| ==> r.items[k].unitAmount > 0.0 { PricedIsTimes(r.items); }
  }

  // Descriptions.

  lemma {:induction false} FieldsWithout(s: string, word: string, c: char)
    requires c !in s && c !in word
    ensures forall w :: w in Fields(s, word) ==> c !in w
    decreases |s|
  {
    if s != "" {
      FieldsWithout(s[1..], "", c);
      FieldsWithout(s[1..], word + [s[0]], c);
    }
  }

  lemma {:induction false} JoinWithout(words: seq<string>, c: char)
    requires c != ' ' && forall w :: w in words ==> c !in w
    ensures c !in JoinWords(words)
  {
    if |words| > 1 {
      assert forall w :: w in words[1..] ==> w in words;
      JoinWithout(words[1..], c);
    }
  }

  lemma TrimWithout(s: string, c: char)
    requires c !in s
    ensures c !in TrimSpace(s)
  {
    TrimLeftIs(s, IsSpace);
    TrimRightIs(TrimLeft(s, IsSpace), IsSpace);
  }

  lemma ReplacedWithout(s: string, c: char, d: char)
    requires c != d
    ensures c !in Replace(s, c, d)
  {
  }

  /** What stripNumbers leaves of a line is trimmed and without equals signs. */
  lemma StrippedIsTidy(lx: Lexicon, line: string)
    ensures Trimmed(StripNumbers(lx, line)) && '=' !in StripNumbers(lx, line)
  {
    var a := ReplaceAll(lx.money, line, " ", 0);
    var b := ReplaceAll(lx.qtyPrefix, a, " ", 0);
    var c := ReplaceAll(lx.qtyTimes, b, " ", 0);
    TidyFields(ReplaceAll(lx.qtyInline, c, " ", 0));
  }

  lemma TidyFields(d: string)
    ensures var r := TrimSpace(JoinWords(Fields(Replace(d, '=', ' '), ""))); Trimmed(r) && '=' !in r
  {
    var e := Replace(d, '=', ' ');
    ReplacedWithout(d, '=', ' ');
    FieldsWithout(e, "", '=');
    JoinWithout(Fields(e, ""), '=');
    TrimWithout(JoinWords(Fields(e, "")), '=');
    TrimSpaceIs(JoinWords(Fields(e, "")));
  }
}
