/** A receipt that is written as item lines and a total line is read back whole. */
module WrittenReceipts {
  import opened Text
  import opened Regex
  import opened RegexTheorems
  import opened Extract
  import opened Money
  import opened Lexing
  import opened MoneyTheorems
  import opened Preference
  import opened Quantities
  import opened Keywords
  import opened Receipt
  import opened ExtractTheorems
  import opened ParseAnswers
  import opened Descriptions

  // Lines that begin neither with c nor with i are no meta lines.

  predicate OtherStart(s: string) {
    s != "" && Fold(s[0]) != 'c' && Fold(s[0]) != 'i'
  }

  lemma {:induction false} AnyFails(rs: seq<Re>, s: string, m: Match)
    requires rs != [] && m.pos <= |s| && forall k :: 0 <= k < |rs| ==> Run(rs[k], s, m) == []
    ensures Run(AnyOf(rs), s, m) == []
    decreases |rs|
  {
    if |rs| > 1 { AnyFails(rs[1..], s, m); }
  }

  lemma InscricaoFails(s: string)
    requires OtherStart(s)
    ensures Run(INSCRICAO, s, Match(0, 0, 0)) == []
  {
    OtherLetter("inscri", s, 0);
    WordRun("inscri", s, Match(0, 0, 0));
    CatFails(Word("inscri"), Cat(Chr(OneOf("cç")), Cat(Chr(OneOf("aã")), Word("o"))), s, Match(0, 0, 0));
  }

  lemma MetaWordFails(k: nat, s: string)
    requires k < |META_WORDS| && OtherStart(s)
    ensures Run(META_WORDS[k], s, Match(0, 0, 0)) == []
  {
    var m := Match(0, 0, 0);
    if k < 5 {
      assert META_WORDS[k] == Word(META_NAMES[k]);
      OtherLetter(META_NAMES[k], s, 0);
      WordRun(META_NAMES[k], s, m);
    } else {
      InscricaoFails(s);
    }
  }

  lemma NoMeta(s: string)
    requires OtherStart(s)
    ensures !MatchString(META_LINE, s)
  {
    var m := Match(0, 0, 0);
    forall k | 0 <= k < |META_WORDS| ensures Run(META_WORDS[k], s, m) == [] { MetaWordFails(k, s); }
    AnyFails(META_WORDS, s, m);
    CatFails(AnyOf(META_WORDS), Edge, s, m);
    BolFails(Cat(AnyOf(META_WORDS), Edge), s);
  }

  // Something in it is neither space nor junk.
  predicate Labels(name: string) {
    exists k :: 0 <= k < |name| && !IsSpace(name[k]) && !IsJunk(name[k])
  }

  lemma AmountOfLine(letters: Letters, n: Numeral, gap: string, mark: char, name: string, shape: Shape, cents: nat)
    requires Written(n) && |n.frac| <= 1 && AllSpace(gap) && IsMark(mark) && Wording(name) && Worth(cents).Some?
    ensures ParseAmounts(Patterns(letters), TimesText(n, gap, mark, name) + Render(shape, cents)) ==
            [Price(cents)]
  {
    var s := TimesText(n, gap, mark, name);
    TimesIsGap(n, gap, mark, name);
    AmountRoundTrip(letters, s, shape, cents, "");
    PriceIs(cents);
    assert s + Render(shape, cents) + "" == s + Render(shape, cents);
  }

  lemma WordsOfLine(letters: Letters, n: Numeral, gap: string, mark: char, name: string, shape: Shape, cents: nat)
    requires Written(n) && |n.frac| <= 1 && AllSpace(gap) && IsMark(mark) && Wording(name)
    ensures StripNumbers(Patterns(letters), TimesText(n, gap, mark, name) + Render(shape, cents)) == Tidied(name)
  {
    var line := TimesText(n, gap, mark, name) + Render(shape, cents);
    TimesTaken(letters, n, gap, mark, name, shape, cents, "");
    assert line + "" == line && Fields(name, "") + [] == Fields(name, "");
  }

  lemma LineStart(n: Numeral, gap: string, mark: char, name: string, more: string)
    requires Written(n)
    ensures var line := TimesText(n, gap, mark, name) + more; line != "" && IsDigit(line[0])
  {
    var line := TimesText(n, gap, mark, name) + more;
    TextTrimmed(n);
    assert line[0] == TextOf(n)[0];
  }

  lemma QuantityOfLine(letters: Letters, n: Numeral, gap: string, mark: char, name: string, more: string)
    requires Written(n) && ValueOf(n) < TOO_LARGE as real && AllSpace(gap) && IsMark(mark)
    ensures ParseQty(Patterns(letters), TimesText(n, gap, mark, name) + more) == ValueOf(n)
  {
    TimesThen(n, gap, mark, name, more);
    QuantityOfText(letters, n, gap, mark, name + more);
  }

  lemma QuantityOfText(letters: Letters, n: Numeral, gap: string, mark: char, rest: string)
    requires Written(n) && ValueOf(n) < TOO_LARGE as real && AllSpace(gap) && IsMark(mark)
    ensures ParseQty(Patterns(letters), TimesText(n, gap, mark, rest)) == ValueOf(n)
  {
    TimesRead(letters, "", n, gap, mark, rest);
    assert "" + TextOf(n) == TextOf(n);
  }

  // What the words of a text hold is in the text, and the other way round.

  ghost predicate Hold(words: seq<string>, c: char) {
    exists k :: 0 <= k < |words| && c in words[k]
  }

  lemma HoldCons(w: string, words: seq<string>, c: char)
    ensures Hold([w] + words, c) <==> c in w || Hold(words, c)
  {
    var all := [w] + words;
    if c in w { assert c in all[0]; }
    if k :| 0 <= k < |words| && c in words[k] { assert c in all[k + 1]; }
    if k :| 0 < k < |all| && c in all[k] { assert c in words[k - 1]; }
  }

  lemma {:induction false} FieldsHold(s: string, word: string, c: char)
    requires !IsSpace(c)
    ensures c in s || c in word <==> Hold(Fields(s, word), c)
    decreases |s|
  {
    if s == "" {
      HoldCons(word, [], c);
      assert [word] + [] == [word];
    } else {
      assert c in s <==> c == s[0] || c in s[1..];
      if IsSpace(s[0]) {
        FieldsHold(s[1..], "", c);
        HoldCons(word, Fields(s[1..], ""), c);
        assert [] + Fields(s[1..], "") == Fields(s[1..], "");
      } else {
        FieldsHold(s[1..], word + [s[0]], c);
      }
    }
  }

  lemma {:induction false} JoinHolds(words: seq<string>, k: nat, c: char)
    requires k < |words| && c in words[k]
    ensures c in JoinWords(words)
    decreases |words|
  {
    if k > 0 { JoinHolds(words[1..], k - 1, c); }
  }

  lemma NotJunk(name: string)
    requires Labels(name)
    ensures Tidied(name) != "" && !MatchString(JUNK_DESC, Tidied(name))
  {
    var k :| 0 <= k < |name| && !IsSpace(name[k]) && !IsJunk(name[k]);
    var c, f := name[k], Fields(name, "");
    FieldsHold(name, "", c);
    var n :| 0 <= n < |f| && c in f[n];
    JoinHolds(f, n, c);
    JunkIff(Tidied(name));
  }

  // What is written.

  type Number = n: Numeral | Written(n) && |n.frac| <= 1 witness Numeral("1", false, "")

  datatype Entry = Entry(n: Number, gap: string, mark: char, name: string, shape: Shape, cents: nat)

  // A quantity with at most one decimal, a times mark, a description and a price, all on one line.
  predicate IsEntry(e: Entry) {
    && 0.0 < ValueOf(e.n) < TOO_LARGE as real && AllSpace(e.gap) && '\n' !in e.gap && IsMark(e.mark)
    && Wording(e.name) && '\n' !in e.name && Labels(e.name) && Worth(e.cents).Some?
  }

  function EntryText(e: Entry): string {
    TimesText(e.n, e.gap, e.mark, e.name) + Render(e.shape, e.cents)
  }

  function Price(cents: nat): real {
    cents as real / 100.0
  }

  lemma PriceIs(cents: nat)
    ensures Worth(cents) == None || Worth(cents) == Some(Price(cents))
  {
  }

  function ItemFor(desc: string, q: real, v: real): Item {
    Item(desc, q, v, q * v)
  }

  function EntryItem(e: Entry): Item {
    ItemFor(JoinWords(Fields(e.name, "")), ValueOf(e.n), Price(e.cents))
  }

  datatype TotalLine = TotalLine(word: string, sep: string, shape: Shape, cents: nat)

  // The word total, something that is no part of a word, and the amount.
  predicate IsTotalLine(t: TotalLine) {
    && IsSpelled("total", t.word) && Wording(t.sep) && '\n' !in t.sep && t.sep != "" && !IsWord(t.sep[0])
    && Worth(t.cents).Some?
  }

  function TotalLineText(t: TotalLine): string {
    t.word + t.sep + Render(t.shape, t.cents)
  }

  function EntryTexts(entries: seq<Entry>): (lines: seq<string>)
    ensures |lines| == |entries| && forall k :: 0 <= k < |entries| ==> lines[k] == EntryText(entries[k])
  {
    seq(|entries|, k requires 0 <= k < |entries| => EntryText(entries[k]))
  }

  function EntryItems(entries: seq<Entry>): (items: seq<Item>)
    ensures |items| == |entries| && forall k :: 0 <= k < |entries| ==> items[k] == EntryItem(entries[k])
  {
    seq(|entries|, k requires 0 <= k < |entries| => EntryItem(entries[k]))
  }

  // Item lines.

  lemma LineReads(lx: Lexicon, line: string, v: real, q: real, desc: string)
    ensures
      && !MatchString(lx.meta, line) && !MatchString(lx.total, line) && ParseAmounts(lx, line) == [v]
      && ParseQty(lx, line) == q && q != 0.0
      && StripNumbers(lx, line) == desc && desc != "" && !MatchString(lx.junk, desc) ==>
        LineOf(lx, line) == Money([v], false, q, desc)
  {
    MoneyLineSays(lx, line);
  }

  // The entry as the line it is read as.
  function EntryLine(e: Entry): Line {
    Money([Price(e.cents)], false, ValueOf(e.n), Tidied(e.name))
  }

  // What the program's patterns make of an item line, one thing at a time.

  ghost predicate NoneIsMeta(lx: Lexicon) {
    forall e :: IsEntry(e) ==> !MatchString(lx.meta, EntryText(e))
  }

  ghost predicate PricesRead(lx: Lexicon) {
    forall e :: IsEntry(e) ==> ParseAmounts(lx, EntryText(e)) == [Price(e.cents)]
  }

  ghost predicate QuantitiesRead(lx: Lexicon) {
    forall e :: IsEntry(e) ==> ParseQty(lx, EntryText(e)) == ValueOf(e.n)
  }

  ghost predicate NamesRead(lx: Lexicon) {
    forall e :: IsEntry(e) ==> StripNumbers(lx, EntryText(e)) == Tidied(e.name)
  }

  ghost predicate NoneIsJunk(lx: Lexicon) {
    forall e :: IsEntry(e) ==> Tidied(e.name) != "" && !MatchString(lx.junk, Tidied(e.name))
  }

  lemma EntryStarts(e: Entry)
    requires IsEntry(e)
    ensures OtherStart(EntryText(e))
  {
    LineStart(e.n, e.gap, e.mark, e.name, Render(e.shape, e.cents));
  }

  lemma MetaRead(letters: Letters)
    ensures NoneIsMeta(Patterns(letters))
  {
    forall e | IsEntry(e) ensures !MatchString(META_LINE, EntryText(e)) {
      EntryStarts(e);
      NoMeta(EntryText(e));
    }
  }

  lemma PriceRead(letters: Letters)
    ensures PricesRead(Patterns(letters))
  {
    forall e | IsEntry(e) ensures ParseAmounts(Patterns(letters), EntryText(e)) == [Price(e.cents)] {
      AmountOfLine(letters, e.n, e.gap, e.mark, e.name, e.shape, e.cents);
    }
  }

  lemma QuantityRead(letters: Letters)
    ensures QuantitiesRead(Patterns(letters))
  {
    forall e | IsEntry(e) ensures ParseQty(Patterns(letters), EntryText(e)) == ValueOf(e.n) {
      QuantityOfLine(letters, e.n, e.gap, e.mark, e.name, Render(e.shape, e.cents));
    }
  }

  lemma NameRead(letters: Letters)
    ensures NamesRead(Patterns(letters))
  {
    forall e | IsEntry(e) ensures StripNumbers(Patterns(letters), EntryText(e)) == Tidied(e.name) {
      WordsOfLine(letters, e.n, e.gap, e.mark, e.name, e.shape, e.cents);
    }
  }

  lemma JunkRead(letters: Letters)
    ensures NoneIsJunk(Patterns(letters))
  {
    forall e | IsEntry(e) ensures Tidied(e.name) != "" && !MatchString(JUNK_DESC, Tidied(e.name)) { NotJunk(e.name); }
  }

  lemma EntryReads(lx: Lexicon, e: Entry)
    requires NoneIsMeta(lx) && PricesRead(lx) && QuantitiesRead(lx) && NamesRead(lx) && NoneIsJunk(lx) && IsEntry(e)
    ensures !MatchString(lx.total, EntryText(e)) ==> LineOf(lx, EntryText(e)) == EntryLine(e)
  {
    LineReads(lx, EntryText(e), Price(e.cents), ValueOf(e.n), Tidied(e.name));
  }

  // A line that trimming and splitting leave as it is.
  predicate WholeLine(line: string) {
    line != "" && Trimmed(line) && '\n' !in line
  }

  lemma {:induction false} WithoutKeeps(s: string, d: char, c: char)
    requires c in s && c != d
    ensures c in Without(s, d)
    decreases |s|
  {
    if s[0] != c { WithoutKeeps(s[1..], d, c); }
  }

  lemma BodyIsPlain(shape: Shape, n: nat)
    ensures '\n' !in Body(shape, n)
  {
    var body := Body(shape, n);
    BodyIsWhole(shape, n);
    DigitsAreNone(Without(body, '.'), '\n');
    if '\n' in body { WithoutKeeps(body, '.', '\n'); }
  }

  lemma RenderIsPlain(shape: Shape, cents: nat)
    ensures var t := Render(shape, cents); '\n' !in t && t != "" && IsDigit(t[|t| - 1])
  {
    var t, two := Render(shape, cents), Two(cents);
    BodyIsPlain(shape, cents / 100);
    TwoIs(cents);
    DigitsAreNone(two, '\n');
    assert t[|t| - 1] == two[1];
  }

  lemma EntryIsLine(e: Entry)
    requires IsEntry(e)
    ensures WholeLine(EntryText(e))
  {
    var s, t := EntryText(e), Render(e.shape, e.cents);
    RenderIsPlain(e.shape, e.cents);
    LineStart(e.n, e.gap, e.mark, e.name, t);
    assert s[|s| - 1] == t[|t| - 1];
    TimesIsPlain(e);
  }

  lemma TimesIsPlain(e: Entry)
    requires IsEntry(e)
    ensures '\n' !in TimesText(e.n, e.gap, e.mark, e.name)
  {
    MarksAre(e.mark);
    DigitsAreNone(e.n.whole, '\n');
    DigitsAreNone(e.n.frac, '\n');
    assert '\n' !in TextOf(e.n);
  }

  // The loop.

  lemma OneMore(lx: Lexicon, st: Scan, line: string, more: seq<string>)
    requires WholeLine(line)
    ensures ScanAll(lx, st, [line] + more) == ScanAll(lx, ScanLine(lx, st, line), more)
  {
    TrimSpaceIs(line);
    assert ([line] + more)[1..] == more;
  }

  lemma ItemAdvanced(st: Scan, v: real, q: real, desc: string)
    requires desc != "" && !st.pendingPay
    ensures Advance(st, Money([v], false, q, desc)) ==
            st.(items := st.items + [ItemFor(desc, q, v)], pendingDesc := "")
  {
    var l, it := Money([v], false, q, desc), ItemFor(desc, q, v);
    assert ItemOf(l, st.pendingDesc) == it by { assert v * q == q * v; }
    assert Advance(st, l) == st.(items := st.items + [ItemOf(l, st.pendingDesc)], pendingDesc := "");
  }

  // The lines of the entries are read as they are meant.
  predicate AllRead(lx: Lexicon, entries: seq<Entry>) {
    forall k :: 0 <= k < |entries| ==>
      && WholeLine(EntryText(entries[k])) && Tidied(entries[k].name) != ""
      && LineOf(lx, EntryText(entries[k])) == EntryLine(entries[k])
  }

  lemma EntryScanned(lx: Lexicon, st: Scan, e: Entry, more: seq<string>)
    requires AllRead(lx, [e]) && !st.pendingPay && st.pendingDesc == ""
    ensures ScanAll(lx, st, [EntryText(e)] + more) == ScanAll(lx, st.(items := st.items + [EntryItem(e)]), more)
  {
    assert [e][0] == e;
    OneMore(lx, st, EntryText(e), more);
    ScanLineIs(lx, st, EntryText(e));
    ItemAdvanced(st, Price(e.cents), ValueOf(e.n), Tidied(e.name));
  }

  lemma TotalScanned(lx: Lexicon, st: Scan, line: string, v: real)
    requires !MatchString(lx.meta, line) && ParseAmounts(lx, line) == [v] && MatchString(lx.total, line)
    ensures ScanLine(lx, st, line) == Scan(st.items, v, true, "", false)
  {
  }

  lemma {:induction false} EntriesScanned(lx: Lexicon, st: Scan, entries: seq<Entry>, more: seq<string>)
    requires AllRead(lx, entries) && !st.pendingPay && st.pendingDesc == ""
    ensures ScanAll(lx, st, EntryTexts(entries) + more) ==
            ScanAll(lx, st.(items := st.items + EntryItems(entries)), more)
    decreases |entries|
  {
    if entries == [] {
      assert EntryTexts(entries) + more == more && st.items + EntryItems(entries) == st.items;
    } else {
      var e, rest := entries[0], entries[1..];
      var st' := st.(items := st.items + [EntryItem(e)]);
      FirstText(entries, more);
      FirstItem(entries, st.items);
      EntryScanned(lx, st, e, EntryTexts(rest) + more);
      EntriesScanned(lx, st', rest, more);
    }
  }

  lemma FirstText(entries: seq<Entry>, more: seq<string>)
    requires entries != []
    ensures EntryTexts(entries) + more == [EntryText(entries[0])] + (EntryTexts(entries[1..]) + more)
  {
  }

  lemma FirstItem(entries: seq<Entry>, items: seq<Item>)
    requires entries != []
    ensures items + EntryItems(entries) == items + [EntryItem(entries[0])] + EntryItems(entries[1..])
  {
  }

  // The total line.

  lemma WordingIsGap(s: string)
    requires Wording(s)
    ensures Gap(s)
  {
  }

  lemma TotalWording(t: TotalLine)
    requires IsTotalLine(t)
    ensures Wording(t.word + t.sep) && WholeLine(TotalLineText(t)) && OtherStart(TotalLineText(t))
  {
    var s, r := TotalLineText(t), Render(t.shape, t.cents);
    forall k | 0 <= k < |t.word|
      ensures 'a' <= Fold(t.word[k]) <= 'z'
    {
      assert Fold(t.word[0 + k]) == Fold("total"[k]);
    }
    RenderIsPlain(t.shape, t.cents);
    assert s[0] == t.word[0] && s[|s| - 1] == r[|r| - 1];
    assert Fold(t.word[0 + 0]) == Fold("total"[0]);
  }

  lemma TotalAmount(letters: Letters, t: TotalLine)
    requires IsTotalLine(t)
    ensures ParseAmounts(Patterns(letters), TotalLineText(t)) == [Price(t.cents)]
  {
    TotalWording(t);
    WordingIsGap(t.word + t.sep);
    AmountRoundTrip(letters, t.word + t.sep, t.shape, t.cents, "");
    PriceIs(t.cents);
    assert TotalLineText(t) + "" == TotalLineText(t);
  }

  lemma TotalNamed(t: TotalLine)
    requires IsTotalLine(t)
    ensures MatchString(TOTAL_LINE, TotalLineText(t))
  {
    var more := t.sep + Render(t.shape, t.cents);
    assert more[0] == t.sep[0];
    TotalMatches("", Total(t.word), more);
    assert "" + t.word + more == TotalLineText(t);
  }

  lemma CentsAreRound(cents: nat)
    ensures Round2(Price(cents)) == Price(cents)
  {
    Round2IsNearest(cents as real / 100.0, cents);
  }

  lemma LinesBack(lx: Lexicon, entries: seq<Entry>, last: string)
    requires AllRead(lx, entries) && WholeLine(last)
    ensures Split(Join(EntryTexts(entries) + [last])) == EntryTexts(entries) + [last]
  {
    SplitJoin(EntryTexts(entries) + [last]);
  }

  lemma ReceiptScanned(lx: Lexicon, entries: seq<Entry>, last: string, v: real)
    requires AllRead(lx, entries) && WholeLine(last)
    requires !MatchString(lx.meta, last) && ParseAmounts(lx, last) == [v] && MatchString(lx.total, last)
    ensures var items := EntryItems(entries);
      ParseSpec(lx, Join(EntryTexts(entries) + [last])) == Result(items, Round2(v), Round2(Computed(items)), true)
  {
    var items := EntryItems(entries);
    LinesBack(lx, entries, last);
    EntriesScanned(lx, START, entries, [last]);
    assert [] + items == items;
    OneMore(lx, START.(items := items), last, []);
    assert [last] + [] == [last];
    TotalScanned(lx, START.(items := items), last, v);
  }

  // What the program's patterns make of a total line.
  ghost predicate TotalsRead(lx: Lexicon) {
    forall t :: IsTotalLine(t) ==>
      && !MatchString(lx.meta, TotalLineText(t)) && MatchString(lx.total, TotalLineText(t))
      && ParseAmounts(lx, TotalLineText(t)) == [Price(t.cents)]
  }

  lemma TotalRead(letters: Letters)
    ensures TotalsRead(Patterns(letters))
  {
    forall t | IsTotalLine(t)
      ensures !MatchString(META_LINE, TotalLineText(t)) && MatchString(TOTAL_LINE, TotalLineText(t))
      ensures ParseAmounts(Patterns(letters), TotalLineText(t)) == [Price(t.cents)]
    {
      TotalWording(t);
      NoMeta(TotalLineText(t));
      TotalNamed(t);
      TotalAmount(letters, t);
    }
  }

  lemma EntriesRead(lx: Lexicon, entries: seq<Entry>)
    requires NoneIsMeta(lx) && PricesRead(lx) && QuantitiesRead(lx) && NamesRead(lx) && NoneIsJunk(lx)
    requires forall k :: 0 <= k < |entries| ==> IsEntry(entries[k]) && !MatchString(lx.total, EntryText(entries[k]))
    ensures AllRead(lx, entries)
  {
    forall k | 0 <= k < |entries|
      ensures WholeLine(EntryText(entries[k])) && Tidied(entries[k].name) != ""
      ensures LineOf(lx, EntryText(entries[k])) == EntryLine(entries[k])
    {
      EntryIsLine(entries[k]);
      EntryReads(lx, entries[k]);
    }
  }

  lemma ReceiptRead(lx: Lexicon, entries: seq<Entry>, t: TotalLine)
    requires AllRead(lx, entries) && TotalsRead(lx) && IsTotalLine(t)
    ensures var items := EntryItems(entries);
      ParseSpec(lx, Join(EntryTexts(entries) + [TotalLineText(t)])) ==
      Result(items, Price(t.cents), Round2(Computed(items)), true)
  {
    TotalWording(t);
    CentsAreRound(t.cents);
    ReceiptScanned(lx, entries, TotalLineText(t), Price(t.cents));
  }

  /** A receipt written as item lines, each a quantity, a times mark, a description and a price, and then a total line
      is read back whole: the items in order, each with the words of its description, its quantity, its price and
      their product, and the total as it was written. */
  lemma ReceiptRoundTrip(letters: Letters, entries: seq<Entry>, t: TotalLine)
    requires IsTotalLine(t)
    requires forall k :: 0 <= k < |entries| ==> IsEntry(entries[k]) && !MatchString(TOTAL_LINE, EntryText(entries[k]))
    ensures var items := EntryItems(entries);
      ParseSpec(Patterns(letters), Join(EntryTexts(entries) + [TotalLineText(t)])) ==
      Result(items, Price(t.cents), Round2(Computed(items)), true)
  {
    var lx := Patterns(letters);
    MetaRead(letters);
    PriceRead(letters);
    QuantityRead(letters);
    NameRead(letters);
    JunkRead(letters);
    TotalRead(letters);
    EntriesRead(lx, entries);
    ReceiptRead(lx, entries, t);
  }

  lemma PricedItemIsFine(desc: string, q: real, v: real)
    requires desc != ""
    ensures WeakItem(ItemFor(desc, q, v)) <==> desc == "unlabeled item"
  {
    WeakIff(ItemFor(desc, q, v));
  }

  /** So such a receipt is taken to be complete if and only if it has an item, the written total is within five cents
      of the sum of the items, and no item is described by the placeholder itself. */
  lemma WrittenIsCompleteIff(letters: Letters, entries: seq<Entry>, t: TotalLine)
    requires IsTotalLine(t)
    requires forall k :: 0 <= k < |entries| ==> IsEntry(entries[k]) && !MatchString(TOTAL_LINE, EntryText(entries[k]))
    ensures var items := EntryItems(entries);
      !IncompleteSpec(ParseSpec(Patterns(letters), Join(EntryTexts(entries) + [TotalLineText(t)]))) <==>
        && entries != [] && -0.05 <= Price(t.cents) - Round2(Computed(items)) <= 0.05
        && forall k :: 0 <= k < |items| ==> items[k].description != "unlabeled item"
  {
    var items := EntryItems(entries);
    var r := Result(items, Price(t.cents), Round2(Computed(items)), true);
    ReceiptRoundTrip(letters, entries, t);
    forall k | 0 <= k < |items| ensures WeakItem(items[k]) <==> items[k].description == "unlabeled item" {
      NotJunk(entries[k].name);
      PricedItemIsFine(items[k].description, items[k].quantity, items[k].unitAmount);
    }
    FieldsIff(r);
  }

  lemma FieldsIff(r: Result)
    ensures IncompleteSpec(r) <==>
      || r.items == [] || !r.foundTotal || !(-0.05 <= r.estimatedTotal - r.computedItemsTotal <= 0.05)
      || exists k :: 0 <= k < |r.items| && WeakItem(r.items[k])
  {
  }
}
