/** The description of an item line is what is left of the line when its quantity and its amount are taken out. */
module Descriptions {
  import opened Text
  import opened Regex
  import opened RegexTheorems
  import opened Extract
  import opened Money
  import opened Lexing
  import opened MoneyTheorems
  import opened Preference
  import opened Quantities

  // Words and spaces.

  predicate GoodWords(words: seq<string>) {
    forall k :: 0 <= k < |words| ==> words[k] != "" && forall n :: 0 <= n < |words[k]| ==> !IsSpace(words[k][n])
  }

  lemma {:induction false} FieldsAreGood(s: string, word: string)
    requires forall n :: 0 <= n < |word| ==> !IsSpace(word[n])
    ensures GoodWords(Fields(s, word))
    decreases |s|
  {
    if s != "" {
      if IsSpace(s[0]) { FieldsAreGood(s[1..], ""); } else { FieldsAreGood(s[1..], word + [s[0]]); }
    }
  }

  lemma {:induction false} JoinIsTrimmed(words: seq<string>)
    requires GoodWords(words)
    ensures var s := JoinWords(words); Trimmed(s) && (s == "" <==> words == [])
    decreases |words|
  {
    if |words| > 1 {
      var rest := words[1..];
      JoinIsTrimmed(rest);
      var s := JoinWords(words);
      assert s == words[0] + " " + JoinWords(rest);
      assert s[0] == words[0][0] && s[|s| - 1] == JoinWords(rest)[|JoinWords(rest)| - 1];
    }
  }

  lemma {:induction false} FieldsOfWord(w: string, s: string, word: string)
    requires forall n :: 0 <= n < |w| ==> !IsSpace(w[n])
    ensures Fields(w + s, word) == Fields(s, word + w)
    decreases |w|
  {
    if w == "" {
      assert w + s == s && word + w == word;
    } else {
      assert (w + s)[1..] == w[1..] + s && (w + s)[0] == w[0];
      FieldsOfWord(w[1..], s, word + [w[0]]);
      assert word + [w[0]] + w[1..] == word + w;
    }
  }

  lemma WordAlone(w: string)
    requires w != "" && forall n :: 0 <= n < |w| ==> !IsSpace(w[n])
    ensures Fields(w, "") == [w]
  {
    FieldsOfWord(w, "", "");
    assert w + "" == w && "" + w == w;
  }

  lemma WordThen(w: string, more: string)
    requires w != "" && forall n :: 0 <= n < |w| ==> !IsSpace(w[n])
    ensures Fields(w + " " + more, "") == [w] + Fields(more, "")
  {
    WordAlone(w);
    FieldsConcat(w, ' ', more, "");
    assert w + [' '] + more == w + " " + more;
  }

  /** Words written with single spaces between them are the words that are read. */
  lemma {:induction false} FieldsOfJoin(words: seq<string>)
    requires GoodWords(words)
    ensures Fields(JoinWords(words), "") == words
    decreases |words|
  {
    if words != [] {
      var w, rest := words[0], words[1..];
      if |words| == 1 {
        WordAlone(w);
      } else {
        WordThen(w, JoinWords(rest));
        FieldsOfJoin(rest);
      }
    }
  }

  // A space ends a word, and what comes after it is read on its own.
  lemma {:induction false} FieldsConcat(x: string, c: char, y: string, word: string)
    requires IsSpace(c)
    ensures Fields(x + [c] + y, word) == Fields(x, word) + Fields(y, "")
    decreases |x|
  {
    var s := x + [c] + y;
    if x == "" {
      assert s[0] == c && s[1..] == y;
    } else {
      assert s[0] == x[0] && s[1..] == x[1..] + [c] + y;
      if IsSpace(x[0]) { FieldsConcat(x[1..], c, y, ""); } else { FieldsConcat(x[1..], c, y, word + [x[0]]); }
    }
  }

  lemma FieldsLead(y: string)
    ensures Fields(" " + y, "") == Fields(y, "")
  {
    assert (" " + y)[1..] == y;
  }

  lemma {:induction false} FieldsSkip(s: string, lo: nat, e: nat)
    requires lo <= e <= |s| && forall k :: lo <= k < e ==> IsReSpace(s[k])
    ensures Fields(s[lo..], "") == Fields(s[e..], "")
    decreases e - lo
  {
    if lo < e {
      assert s[lo..][1..] == s[lo + 1..] && s[lo..][0] == s[lo];
      FieldsSkip(s, lo + 1, e);
    }
  }

  // The words of a text with single spaces between them.
  function Tidied(s: string): string {
    JoinWords(Fields(s, ""))
  }

  lemma TidiedIsTrimmed(s: string)
    ensures TrimSpace(Tidied(s)) == Tidied(s)
  {
    FieldsAreGood(s, "");
    JoinIsTrimmed(Fields(s, ""));
    TrimSpaceIs(Tidied(s));
  }

  // Text without digits, equals signs and dollar signs.
  predicate Wording(s: string) {
    forall k :: 0 <= k < |s| ==> !IsDigit(s[k]) && s[k] != '=' && s[k] != '$'
  }

  // Taking the amount out.

  lemma CurrencyHasDollar()
    ensures MustHit(CURRENCY, c => c == '$')
  {
    assert MustHit(Chr(Lit('$')), c => c == '$');
  }

  // Without a dollar sign before it, the match starts at the amount itself.
  lemma StartsAtAmount(s: string, st: nat, b: nat)
    requires st <= b <= |s| && (forall k :: st <= k < b ==> s[k] != '$')
    requires Run(BR_MONEY, s, Match(st, st, st)) != [] && Run(BR_MONEY, s, Match(st, st, st))[0].from == b
    ensures st == b
  {
    var m := Match(st, st, st);
    var m' := Run(BR_MONEY, s, m)[0];
    var m1 := CatInv(Opt(CURRENCY), Group(AMOUNT), s, m, m');
    var m2 := CaptureInv(m1.pos, s, Run(AMOUNT, s, m1), m');
    assert m1.pos == b;
    if m1 in Run(CURRENCY, s, m) {
      CurrencyHasDollar();
      MustHitHits(CURRENCY, s, m, m1, c => c == '$');
    }
  }

  lemma AmountFound(s: string, b: nat, e: nat)
    requires Quiet(s, 0, b) && ReadsTo(s, b, e) && forall k :: 0 <= k < b ==> s[k] != '$'
    ensures Find(BR_MONEY, s, 0) == Found(b, Match(e, b, e))
  {
    FindsAmount(s, 0, b, e);
    MoneyRuns(s, b, e);
    FindAt(BR_MONEY, s, 0, b);
    FindIs(BR_MONEY, s, 0);
    StartsAtAmount(s, Find(BR_MONEY, s, 0).start, b);
  }

  lemma OnceReplaced(r: Re, s: string, b: nat, m: Match)
    requires Find(r, s, 0) == Found(b, m) && b <= m.pos <= |s| && 0 < m.pos && Find(r, s, m.pos) == NotFound
    ensures ReplaceAll(r, s, " ", 0) == s[..b] + (" " + s[m.pos..])
  {
    assert ReplaceAll(r, s, " ", m.pos) == s[m.pos..];
    assert s[0..b] + " " + s[m.pos..] == s[..b] + (" " + s[m.pos..]);
  }

  // One amount in a line leaves a space.
  lemma AmountBlanked(before: string, shape: Shape, cents: nat, after: string)
    requires Gap(before) && '$' !in before && Wording(after)
    ensures ReplaceAll(BR_MONEY, before + Render(shape, cents) + after, " ", 0) == before + (" " + after)
  {
    var text := Render(shape, cents);
    var s, b, e := before + text + after, |before|, |before| + |text|;
    assert s[..b] == before && s[b..e] == text && s[e..] == after;
    assert PartOf(before, s, 0) && PartOf(text, s, b);
    if after != "" { assert s[e] == after[0]; }
    GapIsQuiet(before, s, 0);
    RenderRead(shape, cents, s, b);
    forall k | 0 <= k < b ensures s[k] != '$' { assert s[k] == before[k]; }
    AmountFound(s, b, e);
    forall k: nat | e <= k ensures !Core(s, k) { if k < |s| { assert s[k] == after[k - e]; } }
    NothingFound(s, e);
    OnceReplaced(BR_MONEY, s, b, Match(e, b, e));
  }

  // Text around one numeral of at most one decimal has no amount.
  lemma NumeralIsGap(x: string, n: Numeral, y: string)
    requires Written(n) && |n.frac| <= 1 && Wording(x) && Wording(y) && y != "" && !IsPoint(y[0])
    ensures Gap(x + TextOf(n) + y)
  {
    var t := TextOf(n);
    var s, lo, e := x + t + y, |x|, |x| + |t|;
    assert s[|s| - 1] == y[|y| - 1];
    forall k: nat ensures !Core(s + "00", k) {
      if k + 3 < |s + "00"| {
        NumeralParts(x, n, y, k);
        NumeralParts(x, n, y, k + 1);
        NumeralParts(x, n, y, k + 2);
        NumeralParts(x, n, y, k + 3);
      }
    }
  }

  // Where the digits and the point of such a text stand.
  lemma NumeralParts(x: string, n: Numeral, y: string, k: nat)
    requires Written(n) && Wording(x) && Wording(y) && y != "" && !IsPoint(y[0])
    requires k < |x + TextOf(n) + y + "00"|
    ensures var z, p, e := x + TextOf(n) + y + "00", |x| + |n.whole|, |x| + |TextOf(n)|;
      && (IsDigit(z[k]) ==> (|x| <= k < e && (k != p || n.frac == "")) || |z| - 2 <= k)
      && (IsPoint(z[k]) ==> k != e && (|x| <= k < e ==> k == p && n.frac != ""))
  {
    var t := TextOf(n);
    var z, e := x + t + y + "00", |x| + |t|;
    if k < |x| {
      assert z[k] == x[k];
    } else if k < e {
      assert z[k] == t[k - |x|];
    } else if k < e + |y| {
      assert z[k] == y[k - e];
    } else {
      assert z[k] == "00"[k - e - |y|];
    }
  }

  // Taking the quantity out.

  lemma QuantityHasDigit()
    ensures MustHit(QTY_TIMES, IsDigit) && MustHit(QTY_INLINE, IsDigit) && MustHit(QTY_PREFIX, IsDigit)
  {
    NumCharsAre();
    var g := Group(NUMBER);
    assert MustHit(Cat(g, Cat(Star(S), Cat(TIMES, Star(S)))), IsDigit);
    assert MustHit(Cat(g, INLINE_END), IsDigit);
    assert MustHit(Cat(Star(S), g), IsDigit);
    assert MustHit(Cat(Opt(Chr(OneOf(":x×*"))), Cat(Star(S), g)), IsDigit);
    assert MustHit(PREFIX_END, IsDigit);
  }

  lemma NothingReplaced(r: Re, s: string)
    requires Find(r, s, 0) == NotFound
    ensures ReplaceAll(r, s, " ", 0) == s
  {
  }

  lemma WithoutEquals(s: string)
    requires '=' !in s
    ensures Replace(s, '=', ' ') == s
  {
  }

  lemma StripSteps(lx: Lexicon, line: string, a: string, b: string, c: string, d: string)
    requires ReplaceAll(lx.money, line, " ", 0) == a && ReplaceAll(lx.qtyPrefix, a, " ", 0) == b
    requires ReplaceAll(lx.qtyTimes, b, " ", 0) == c && ReplaceAll(lx.qtyInline, c, " ", 0) == d && '=' !in d
    ensures StripNumbers(lx, line) == Tidied(d)
  {
    WithoutEquals(d);
    TidiedIsTrimmed(d);
  }

  lemma BolReplaced(r: Re, s: string, m: Match)
    requires Find(Cat(Bol, r), s, 0) == Found(0, m) && 0 < m.pos <= |s|
    ensures ReplaceAll(Cat(Bol, r), s, " ", 0) == " " + s[m.pos..]
  {
    BolOnly(r, s, m.pos);
    OnceReplaced(Cat(Bol, r), s, 0, m);
    assert s[..0] + (" " + s[m.pos..]) == " " + s[m.pos..];
  }

  // What is left without a quantity in it.
  lemma NoQuantity(s: string)
    requires Wording(s)
    ensures ReplaceAll(QTY_TIMES, s, " ", 0) == s && ReplaceAll(QTY_INLINE, s, " ", 0) == s && '=' !in s
  {
    QuantityHasDigit();
    NotFoundWithout(QTY_TIMES, s, 0, IsDigit);
    NotFoundWithout(QTY_INLINE, s, 0, IsDigit);
    NothingReplaced(QTY_TIMES, s);
    NothingReplaced(QTY_INLINE, s);
  }

  // A number and a times mark.

  lemma TimesCut(n: Numeral, gap: string, mark: char, rest: string)
    ensures var s, e, k := TimesText(n, gap, mark, rest), |TextOf(n)|, |TextOf(n)| + |gap|;
      && k < |s| && s[0..e] == TextOf(n) && s[e..k] == gap && s[k] == mark && s[k + 1..] == rest
  {
  }

  lemma TimesLies(n: Numeral, gap: string, mark: char, rest: string) returns (s: string, e: nat, k: nat)
    requires Written(n) && AllSpace(gap) && IsMark(mark)
    ensures s == TimesText(n, gap, mark, rest) && e <= k < |s| && s[k + 1..] == rest
    ensures Find(QTY_TIMES, s, 0) == Found(0, Match(SpaceEnd(s, k + 1), 0, e))
  {
    s, e, k := TimesText(n, gap, mark, rest), |TextOf(n)|, |TextOf(n)| + |gap|;
    TimesCut(n, gap, mark, rest);
    TimesFoundAt(s, n, gap, e, k);
  }

  lemma TimesFoundAt(s: string, n: Numeral, gap: string, e: nat, k: nat)
    requires Written(n) && e <= k < |s| && s[0..e] == TextOf(n) && s[e..k] == gap && AllSpace(gap) && IsMark(s[k])
    ensures Find(QTY_TIMES, s, 0) == Found(0, Match(SpaceEnd(s, k + 1), 0, e))
  {
    MarksAre(s[k]);
    forall i | e <= i < k ensures IsReSpace(s[i]) { assert s[i] == gap[i - e]; }
    assert s[e..][0] == s[e];
    NumeralCut(n, s, 0, e);
    TimesFound(s, 0, |n.whole|, e, k);
  }

  lemma TimesBlanked(s: string, e: nat, k: nat) returns (left: string)
    requires k < |s| && Find(QTY_TIMES, s, 0) == Found(0, Match(SpaceEnd(s, k + 1), 0, e)) && Wording(s[k + 1..])
    ensures ReplaceAll(QTY_TIMES, s, " ", 0) == left
    ensures Wording(left) && Fields(left, "") == Fields(s[k + 1..], "")
  {
    var p := SpaceEnd(s, k + 1);
    BolReplaced(Cat(Star(S), Cat(Group(NUMBER), TIMES_END)), s, Match(p, 0, e));
    FieldsSkip(s, k + 1, p);
    left := " " + s[p..];
    FieldsLead(s[p..]);
    forall i | 0 <= i < |s[p..]| ensures s[p..][i] == s[k + 1..][p - k - 1 + i] { }
  }

  function TimesText(n: Numeral, gap: string, mark: char, name: string): string {
    TextOf(n) + (gap + [mark] + name)
  }

  lemma TimesIsGap(n: Numeral, gap: string, mark: char, name: string)
    requires Written(n) && |n.frac| <= 1 && AllSpace(gap) && IsMark(mark) && Wording(name)
    ensures Gap(TimesText(n, gap, mark, name)) && '$' !in TimesText(n, gap, mark, name)
  {
    var y, t := gap + [mark] + name, TextOf(n);
    MarksAre(mark);
    forall k | 0 <= k < |y| ensures !IsDigit(y[k]) && y[k] != '=' && y[k] != '$' {
      if k < |gap| { assert y[k] == gap[k]; } else if k > |gap| { assert y[k] == name[k - |gap| - 1]; }
    }
    assert y[0] == if gap == "" then mark else gap[0];
    NumeralIsGap("", n, y);
    assert "" + t + y == t + y;
    NumeralChars(n);
  }

  // The words on both sides of an amount.
  lemma AroundAmount(name: string, after: string)
    requires Wording(name) && Wording(after)
    ensures Wording(name + (" " + after)) && Fields(name + (" " + after), "") == Fields(name, "") + Fields(after, "")
  {
    FieldsConcat(name, ' ', after, "");
    assert name + [' '] + after == name + (" " + after);
  }

  lemma TimesStripped(letters: Letters, line: string, n: Numeral, gap: string, mark: char, rest: string)
    requires Written(n) && AllSpace(gap) && IsMark(mark) && Wording(rest)
    requires ReplaceAll(BR_MONEY, line, " ", 0) == TimesText(n, gap, mark, rest)
    ensures StripNumbers(Patterns(letters), line) == Tidied(rest)
  {
    var a, e, k := TimesLies(n, gap, mark, rest);
    TextTrimmed(n);
    StartsOtherwise(a);
    PrefixAbsent(a);
    NothingReplaced(QTY_PREFIX, a);
    var left := TimesBlanked(a, e, k);
    NoQuantity(left);
    StripSteps(Patterns(letters), line, a, a, left, left);
  }

  lemma TimesLineBlanked(n: Numeral, gap: string, mark: char, name: string, shape: Shape, cents: nat, after: string)
    requires Written(n) && |n.frac| <= 1 && AllSpace(gap) && IsMark(mark) && Wording(name) && Wording(after)
    ensures ReplaceAll(BR_MONEY, TimesText(n, gap, mark, name) + Render(shape, cents) + after, " ", 0) ==
            TimesText(n, gap, mark, name + (" " + after))
  {
    var s := TimesText(n, gap, mark, name);
    TimesIsGap(n, gap, mark, name);
    AmountBlanked(s, shape, cents, after);
    TimesThen(n, gap, mark, name, " " + after);
  }

  lemma TimesThen(n: Numeral, gap: string, mark: char, name: string, more: string)
    ensures TimesText(n, gap, mark, name) + more == TimesText(n, gap, mark, name + more)
  {
    assert TextOf(n) + (gap + [mark] + name) + more == TextOf(n) + (gap + [mark] + (name + more));
  }

  /** A quantity with its times mark in front and an amount are taken out of a line; what is left are the words of
      the rest, with single spaces between them. */
  lemma TimesTaken(letters: Letters, n: Numeral, gap: string, mark: char, name: string, shape: Shape, cents: nat,
                   after: string)
    requires Written(n) && |n.frac| <= 1 && AllSpace(gap) && IsMark(mark) && Wording(name) && Wording(after)
    ensures StripNumbers(Patterns(letters), TimesText(n, gap, mark, name) + Render(shape, cents) + after) ==
            JoinWords(Fields(name, "") + Fields(after, ""))
  {
    var line := TimesText(n, gap, mark, name) + Render(shape, cents) + after;
    TimesLineBlanked(n, gap, mark, name, shape, cents, after);
    AroundAmount(name, after);
    TimesStripped(letters, line, n, gap, mark, name + (" " + after));
  }

  // A quantity word with its number.

  predicate IsQuantityWord(word: string) {
    exists w :: w in QTY_WORDS && |word| == |w| && SpelledAt(w, word, 0)
  }

  lemma QuantityWordIs(word: string)
    requires IsQuantityWord(word)
    ensures word != "" && Wording(word)
  {
    var w :| w in QTY_WORDS && |word| == |w| && SpelledAt(w, word, 0);
    forall k | 0 <= k < |word| ensures !IsDigit(word[k]) && word[k] != '=' && word[k] != '$' {
      assert Fold(word[0 + k]) == Fold(w[k]);
      assert 'a' <= w[k] <= 'z';
    }
  }

  lemma LinkIs(l: Link)
    requires IsLink(l)
    ensures Wording(LinkText(l))
  {
    var t := LinkText(l);
    match l
    case Spaces(gap) =>
    case Marked(before, mark, after) =>
      MarksAre(mark);
      forall k | 0 <= k < |t| ensures !IsDigit(t[k]) && t[k] != '=' && t[k] != '$' {
        if k < |before| { assert t[k] == before[k]; } else if k > |before| { assert t[k] == after[k - |before| - 1]; }
      }
  }

  lemma WordingConcat(a: string, b: string)
    requires Wording(a) && Wording(b)
    ensures Wording(a + b)
  {
  }

  lemma NoDollar(x: string, n: Numeral, y: string)
    requires Wording(x) && Written(n) && Wording(y)
    ensures '$' !in x + TextOf(n) + y
  {
    NumeralChars(n);
  }

  lemma PrefixIsGap(word: string, l: Link, n: Numeral, name: string)
    requires IsQuantityWord(word) && IsLink(l) && Written(n) && |n.frac| <= 1
    requires Wording(name) && name != "" && !IsPoint(name[0])
    ensures Gap(PrefixLine(word, l, n, name)) && '$' !in PrefixLine(word, l, n, name)
  {
    QuantityWordIs(word);
    LinkIs(l);
    WordingConcat(word, LinkText(l));
    NumeralIsGap(word + LinkText(l), n, name);
    NoDollar(word + LinkText(l), n, name);
  }

  lemma PrefixThen(word: string, l: Link, n: Numeral, name: string, more: string)
    ensures PrefixLine(word, l, n, name) + more == PrefixLine(word, l, n, name + more)
  {
    var x := word + LinkText(l) + TextOf(n);
    assert x + name + more == x + (name + more);
  }

  lemma PrefixFound(word: string, l: Link, n: Numeral, rest: string) returns (s: string, lo: nat, e: nat)
    requires IsQuantityWord(word) && IsLink(l) && Written(n) && EndsNumeral(n, rest)
    ensures s == PrefixLine(word, l, n, rest) && 0 < e <= |s| && s[e..] == rest
    ensures Find(QTY_PREFIX, s, 0) == Found(0, Match(e, lo, e))
  {
    var w :| w in QTY_WORDS && |word| == |w| && SpelledAt(w, word, 0);
    s, lo := PrefixLine(word, l, n, rest), |word| + |LinkText(l)|;
    e := lo + |TextOf(n)|;
    LinkStands(word, l, n, rest);
    WordStands(w, word, l, n, rest);
    PrefixAt(s, |word|, lo, e);
    PrefixCut(word, l, n, rest);
  }

  lemma PrefixBlanked(word: string, l: Link, n: Numeral, rest: string) returns (a: string, left: string)
    requires IsQuantityWord(word) && IsLink(l) && Written(n) && EndsNumeral(n, rest)
    ensures a == PrefixLine(word, l, n, rest) && left == " " + rest && ReplaceAll(QTY_PREFIX, a, " ", 0) == left
  {
    var lo, e;
    a, lo, e := PrefixFound(word, l, n, rest);
    left := " " + a[e..];
    BolReplaced(Cat(QTY_WORD, PREFIX_END), a, Match(e, lo, e));
  }

  lemma PrefixStripped(letters: Letters, line: string, word: string, l: Link, n: Numeral, rest: string)
    requires IsQuantityWord(word) && IsLink(l) && Written(n) && EndsNumeral(n, rest) && Wording(rest)
    requires ReplaceAll(BR_MONEY, line, " ", 0) == PrefixLine(word, l, n, rest)
    ensures StripNumbers(Patterns(letters), line) == Tidied(rest)
  {
    var a, left := PrefixBlanked(word, l, n, rest);
    assert Wording(left);
    NoQuantity(left);
    FieldsLead(rest);
    assert Tidied(left) == Tidied(rest);
    StripSteps(Patterns(letters), line, a, left, left, left);
  }

  /** A quantity word with its number in front and an amount are taken out of a line; what is left are the words of
      the rest. */
  lemma PrefixTaken(letters: Letters, word: string, l: Link, n: Numeral, name: string, shape: Shape, cents: nat,
                    after: string)
    requires IsQuantityWord(word) && IsLink(l) && Written(n) && |n.frac| <= 1
    requires Wording(name) && name != "" && !IsPoint(name[0]) && Wording(after)
    ensures StripNumbers(Patterns(letters), PrefixLine(word, l, n, name) + Render(shape, cents) + after) ==
            JoinWords(Fields(name, "") + Fields(after, ""))
  {
    var line := PrefixLine(word, l, n, name) + Render(shape, cents) + after;
    PrefixIsGap(word, l, n, name);
    AmountBlanked(PrefixLine(word, l, n, name), shape, cents, after);
    PrefixThen(word, l, n, name, " " + after);
    AroundAmount(name, after);
    PrefixStripped(letters, line, word, l, n, name + (" " + after));
  }

  // A number with its unit.

  // As Inline, with no other number in the line.
  predicate OnlyInline(q: Inline, u: Unit) {
    && IsInline(q, u) && |q.n.frac| <= 1 && Wording(q.before) && Wording(q.rest)
    && (u == X ==> exists k :: 0 <= k < |q.before| && !NumChar(q.before[k]))
  }

  lemma UnitIsWording(q: Inline, u: Unit)
    requires IsInline(q, u)
    ensures Wording(q.unit)
  {
    var w := Name(u);
    forall k | 0 <= k < |q.unit| ensures !IsDigit(q.unit[k]) && q.unit[k] != '=' && q.unit[k] != '$' {
      assert Fold(q.unit[0 + k]) == Fold(w[k]);
      assert 'a' <= w[k] <= 'z';
    }
  }

  lemma InlineIsGap(q: Inline, u: Unit)
    requires OnlyInline(q, u)
    ensures Gap(InlineText(q)) && '$' !in InlineText(q)
  {
    var y := q.gap + q.unit + q.rest;
    UnitIsWording(q, u);
    UnitIsOther(q, u);
    WordingConcat(q.gap, q.unit);
    WordingConcat(q.gap + q.unit, q.rest);
    assert y[0] == if q.gap == "" then q.unit[0] else q.gap[0];
    NumeralIsGap(q.before, q.n, y);
    NoDollar(q.before, q.n, y);
  }

  function Longer(q: Inline, more: string): Inline {
    q.(rest := q.rest + more)
  }

  lemma InlineThen(q: Inline, more: string)
    ensures InlineText(q) + more == InlineText(Longer(q, more))
  {
    var x, y := q.before + TextOf(q.n), q.gap + q.unit;
    assert x + (y + q.rest) + more == x + (y + (q.rest + more));
  }

  lemma TimesNotThere(s: string, q: Inline, u: Unit, lo: nat, e: nat, k: nat)
    requires OnlyInline(q, u) && InlineCut(s, q, lo, e, k)
    ensures Find(QTY_TIMES, s, 0) == NotFound
  {
    if k :| 0 <= k < |q.before| && !NumChar(q.before[k]) {
      OtherFirst(s, q, u, lo);
    } else {
      UnitIsNoMark(s, q, u, lo, e, k);
    }
  }

  lemma InlineBlanked(s: string, q: Inline, u: Unit, lo: nat, e: nat, k: nat)
    requires OnlyInline(q, u) && InlineCut(s, q, lo, e, k)
    ensures ReplaceAll(QTY_INLINE, s, " ", 0) == q.before + (" " + q.rest)
  {
    var x := k + |q.unit|;
    InlineFoundCut(s, q, u, lo, e, k);
    NoInlineAfter(s, x);
    OnceReplaced(QTY_INLINE, s, lo, Match(x, lo, e));
  }

  lemma InlineFoundCut(s: string, q: Inline, u: Unit, lo: nat, e: nat, k: nat)
    requires IsInline(q, u) && InlineCut(s, q, lo, e, k)
    ensures Find(QTY_INLINE, s, 0) == Found(lo, Match(k + |q.unit|, lo, e))
  {
    InlineStands(s, q, u, lo, e, k);
    InlineFound(s, lo, lo + |q.n.whole|, e, k, u);
  }

  lemma NoInlineAfter(s: string, x: nat)
    requires x <= |s| && Wording(s[x..])
    ensures Find(QTY_INLINE, s, x) == NotFound
  {
    QuantityHasDigit();
    forall i | x <= i < |s| ensures !IsDigit(s[i]) { assert s[i] == s[x..][i - x]; }
    NotFoundWithout(QTY_INLINE, s, x, IsDigit);
  }

  lemma InlineStripped(letters: Letters, line: string, q: Inline, u: Unit)
    requires OnlyInline(q, u) && NoQtyWord(InlineText(q)) && ReplaceAll(BR_MONEY, line, " ", 0) == InlineText(q)
    ensures StripNumbers(Patterns(letters), line) == Tidied(q.before + (" " + q.rest))
  {
    var a, left := InlineText(q), q.before + (" " + q.rest);
    var lo, e, k := InlineTextCut(q);
    PrefixAbsent(a);
    NothingReplaced(QTY_PREFIX, a);
    TimesNotThere(a, q, u, lo, e, k);
    NothingReplaced(QTY_TIMES, a);
    InlineBlanked(a, q, u, lo, e, k);
    AroundAmount(q.before, q.rest);
    StripSteps(Patterns(letters), line, a, a, a, left);
  }

  lemma LongerIsInline(q: Inline, u: Unit, after: string)
    requires OnlyInline(q, u) && Wording(after)
    ensures OnlyInline(Longer(q, " " + after), u)
  {
    AroundAmount(q.rest, after);
    LongerIsStill(q, u, after);
  }

  lemma LongerIsStill(q: Inline, u: Unit, after: string)
    requires IsInline(q, u)
    ensures IsInline(Longer(q, " " + after), u)
  {
    var r := q.rest + (" " + after);
    assert r[0] == if q.rest == "" then ' ' else q.rest[0];
  }

  // What is spelled at the start of such a text is spelled before the number.
  lemma SpelledBefore(w: string, q: Inline, u: Unit, more: string)
    requires IsInline(q, u) && forall k :: 0 <= k < |w| ==> 'a' <= w[k] <= 'z'
    ensures SpelledAt(w, InlineText(Longer(q, more)), 0) ==> SpelledAt(w, InlineText(q), 0)
  {
    var s, t := InlineText(Longer(q, more)), TextOf(q.n);
    TextTrimmed(q.n);
    assert s[|q.before|] == t[0];
    if |q.before| < |w| { assert Fold(s[0 + |q.before|]) != Fold(w[|q.before|]); }
    forall k | 0 <= k < |q.before| ensures s[k] == InlineText(q)[k] { }
  }

  lemma StillNoWord(q: Inline, u: Unit, more: string)
    requires IsInline(q, u) && NoQtyWord(InlineText(q))
    ensures NoQtyWord(InlineText(Longer(q, more)))
  {
    SpelledBefore("qtd", q, u, more);
    SpelledBefore("qty", q, u, more);
    SpelledBefore("quant", q, u, more);
  }

  /** A number with x, un, unid, pc or pcs after it and an amount are taken out of a line; what is left are the words
      of the rest. */
  lemma InlineTaken(letters: Letters, q: Inline, u: Unit, shape: Shape, cents: nat, after: string)
    requires OnlyInline(q, u) && Wording(after) && NoQtyWord(InlineText(q))
    ensures StripNumbers(Patterns(letters), InlineText(q) + Render(shape, cents) + after) ==
            JoinWords(Fields(q.before, "") + (Fields(q.rest, "") + Fields(after, "")))
  {
    var line, q' := InlineText(q) + Render(shape, cents) + after, Longer(q, " " + after);
    InlineIsGap(q, u);
    AmountBlanked(InlineText(q), shape, cents, after);
    InlineThen(q, " " + after);
    StillNoWord(q, u, " " + after);
    LongerIsInline(q, u, after);
    AroundAmount(q.rest, after);
    AroundAmount(q.before, q'.rest);
    InlineStripped(letters, line, q', u);
  }

  // Junk.

  predicate IsJunk(c: char) {
    IsReSpace(c) || c == '×' || c == 'x' || c == 'X' || c == '*' || c == '=' || c == '.' || c == '-'
  }

  const JUNK := OneOf("\t\n\U{0C}\r ×x*=.-")

  lemma JunkIs(c: char)
    ensures InClass(JUNK, c) <==> IsJunk(c)
  {
    var j := "\t\n\U{0C}\r ×x*=.-";
    assert j[0] == '\t' && j[1] == '\n' && j[2] == '\U{0C}' && j[3] == '\r' && j[4] == ' ' && j[5] == '×';
    assert j[6] == 'x' && j[7] == '*' && j[8] == '=' && j[9] == '.' && j[10] == '-' && |j| == 11;
  }

  lemma JunkFound(s: string)
    requires s != "" && forall k :: 0 <= k < |s| ==> InClass(JUNK, s[k])
    ensures MatchString(JUNK_DESC, s)
  {
    var m, m' := Match(0, 0, 0), Match(|s|, 0, 0);
    PlusFirst(JUNK, s, m, |s|);
    assert First(Eol, s, m', m');
    CatFirst(Plus(Chr(JUNK)), Eol, s, m, m', m');
    BolFirst(Cat(Plus(Chr(JUNK)), Eol), s, m');
  }

  lemma JunkHits()
    ensures OnlyHits(Plus(Chr(JUNK)), IsJunk) && MustHit(Plus(Chr(JUNK)), IsJunk)
  {
    forall c ensures InClass(JUNK, c) ==> IsJunk(c) { JunkIs(c); }
    assert OnlyHits(Chr(JUNK), IsJunk) && MustHit(Chr(JUNK), IsJunk);
  }

  // A pattern of p alone, from end to end.
  lemma OnlyToEnd(r: Re, p: char -> bool, s: string, m': Match)
    requires OnlyHits(r, p) && MustHit(r, p) && m' in Run(Cat(r, Eol), s, Match(0, 0, 0))
    ensures s != "" && forall k :: 0 <= k < |s| ==> p(s[k])
  {
    var m := Match(0, 0, 0);
    var m1 := CatInv(r, Eol, s, m, m');
    OnlyHitsStays(r, s, m, m1, p);
    MustHitHits(r, s, m, m1, p);
  }

  /** A description is junk if and only if it is made of spaces, times marks, equals signs, points and hyphens alone. */
  lemma JunkIff(s: string)
    ensures MatchString(JUNK_DESC, s) <==> s != "" && forall k :: 0 <= k < |s| ==> IsJunk(s[k])
  {
    var r := Cat(Plus(Chr(JUNK)), Eol);
    JunkHits();
    if Run(r, s, Match(0, 0, 0)) == [] {
      BolFails(r, s);
    } else {
      OnlyToEnd(Plus(Chr(JUNK)), IsJunk, s, Run(r, s, Match(0, 0, 0))[0]);
    }
    forall k | 0 <= k < |s| ensures InClass(JUNK, s[k]) <==> IsJunk(s[k]) { JunkIs(s[k]); }
    if s != "" && forall k :: 0 <= k < |s| ==> IsJunk(s[k]) { JunkFound(s); }
  }
}
