/** What the quantity and barcode patterns take from a line. */
module Quantities {
  import opened Text
  import opened Regex
  import opened RegexTheorems
  import opened Extract
  import opened Money
  import opened Lexing
  import opened Preference

  lemma AnyThree(a: Re, b: Re, c: Re)
    ensures AnyOf([a, b, c]) == Alt(a, Alt(b, c))
  {
    assert [a, b, c][1..] == [b, c] && [b, c][1..] == [c];
    assert AnyOf([c]) == c;
    assert AnyOf([b, c]) == Alt(b, c);
  }

  const QUANT := Cat(Word("quant"), Opt(Word("idade")))

  // Where none of the quantity words is spelled there is no match of them.
  predicate NoQtyWord(s: string) {
    !SpelledAt("qtd", s, 0) && !SpelledAt("qty", s, 0) && !SpelledAt("quant", s, 0)
  }

  lemma PrefixAbsent(s: string)
    requires NoQtyWord(s)
    ensures Find(QTY_PREFIX, s, 0) == NotFound
  {
    var m, rest := Match(0, 0, 0), Cat(Star(S), Cat(Opt(Chr(OneOf(":x×*"))), Cat(Star(S), Group(NUMBER))));
    WordRun("qtd", s, m);
    WordRun("qty", s, m);
    WordRun("quant", s, m);
    CatFails(Word("quant"), Opt(Word("idade")), s, m);
    AnyThree(Word("qtd"), Word("qty"), QUANT);
    assert Run(QTY_WORD, s, m) == [];
    CatFails(QTY_WORD, rest, s, m);
    BolFails(Cat(QTY_WORD, rest), s);
  }

  lemma StartsOtherwise(s: string)
    requires s != "" && Fold(s[0]) != 'q'
    ensures NoQtyWord(s)
  {
    OtherLetter("qtd", s, 0);
    OtherLetter("qty", s, 0);
    OtherLetter("quant", s, 0);
  }

  predicate AllSpace(s: string) {
    forall k :: 0 <= k < |s| ==> IsReSpace(s[k])
  }

  predicate IsMark(c: char) {
    InClass(OneOf("x×*"), c)
  }

  lemma MarksAre(c: char)
    ensures IsMark(c) <==> c == 'x' || c == 'X' || c == '×' || c == '*'
    ensures InClass(OneOf(":x×*"), c) <==> IsMark(c) || c == ':'
  {
    assert "x×*"[0] == 'x' && "x×*"[1] == '×' && "x×*"[2] == '*';
    assert ":x×*"[0] == ':' && ":x×*"[1] == 'x' && ":x×*"[2] == '×' && ":x×*"[3] == '*';
  }

  // The end of the spaces from lo on.
  function SpaceEnd(s: string, lo: nat): (e: nat)
    requires lo <= |s|
    ensures Stretch(Space, s, lo, e)
    decreases |s| - lo
  {
    if lo < |s| && IsReSpace(s[lo]) then SpaceEnd(s, lo + 1) else lo
  }

  // Spaces from lo to e and none at e.
  lemma SpacesFirst(s: string, m: Match, e: nat)
    requires m.pos <= e < |s| && (forall k :: m.pos <= k < e ==> IsReSpace(s[k])) && !IsReSpace(s[e])
    ensures First(Star(S), s, m, m.(pos := e))
  {
    StarFirst(Space, s, m, e);
  }

  const TIMES_END := Cat(Star(S), Cat(TIMES, Star(S)))

  lemma TimesEndFirst(s: string, m: Match, k: nat)
    requires m.pos <= k < |s| && (forall n :: m.pos <= n < k ==> IsReSpace(s[n])) && IsMark(s[k])
    ensures First(TIMES_END, s, m, m.(pos := SpaceEnd(s, k + 1)))
  {
    var m1, m2, last := m.(pos := k), m.(pos := k + 1), SpaceEnd(s, k + 1);
    MarksAre(s[k]);
    StarFirst(Space, s, m2, last);
    ChrFirst(OneOf("x×*"), s, m1);
    CatFirst(TIMES, Star(S), s, m1, m2, m2.(pos := last));
    SpacesFirst(s, m, k);
    CatFirst(Star(S), Cat(TIMES, Star(S)), s, m, m1, m2.(pos := last));
  }

  lemma TimesFound(s: string, lo: nat, p: nat, e: nat, k: nat)
    requires NumeralAt(s, lo, p, e) && (forall n :: 0 <= n < lo ==> IsReSpace(s[n]))
    requires e <= k < |s| && (forall n :: e <= n < k ==> IsReSpace(s[n])) && IsMark(s[k])
    ensures Find(QTY_TIMES, s, 0) == Found(0, Match(SpaceEnd(s, k + 1), lo, e))
  {
    var m0, m1, m2, m' := Match(0, 0, 0), Match(lo, 0, 0), Match(e, lo, e), Match(SpaceEnd(s, k + 1), lo, e);
    assert IsDigit(s[lo]);
    TimesEndFirst(s, m2, k);
    NumberFirst(s, m1, p, e);
    CatFirst(Group(NUMBER), TIMES_END, s, m1, m2, m');
    SpacesFirst(s, m0, lo);
    CatFirst(Star(S), Cat(Group(NUMBER), TIMES_END), s, m0, m1, m');
    BolFirst(Cat(Star(S), Cat(Group(NUMBER), TIMES_END)), s, m');
  }

  // What a capture is read as.
  lemma CaptureRead(r: Re, s: string, lo: nat, hi: nat)
    requires lo <= hi <= |s| && Find(r, s, 0).Found? && Find(r, s, 0).m.from == lo && Find(r, s, 0).m.to == hi
    ensures Submatch(r, s) == ParseMoney(s[lo..hi])
  {
  }

  lemma QtyByTimes(lx: Lexicon, line: string, v: real)
    requires Find(lx.qtyPrefix, line, 0) == NotFound && Submatch(lx.qtyTimes, line) == Some(v)
    ensures ParseQty(lx, line) == v
  {
  }

  lemma TimesMatched(before: string, n: Numeral, gap: string, mark: char, rest: string)
    requires Written(n) && AllSpace(before) && AllSpace(gap) && IsMark(mark)
    ensures Submatch(QTY_TIMES, before + TextOf(n) + (gap + [mark] + rest)) == InRange(ValueOf(n))
  {
    var t, after := TextOf(n), gap + [mark] + rest;
    var s, lo, e := before + t + after, |before|, |before| + |t|;
    assert after[0] == if gap == "" then mark else gap[0];
    MarksAre(mark);
    NumeralLies(n, before, after);
    forall k | 0 <= k < lo ensures IsReSpace(s[k]) { assert s[k] == before[k]; }
    forall k | e <= k < e + |gap| ensures IsReSpace(s[k]) { assert s[k] == gap[k - e]; }
    assert s[e + |gap|] == mark;
    TimesFound(s, lo, lo + |n.whole|, e, e + |gap|);
    CaptureRead(QTY_TIMES, s, lo, e);
    NumeralParses(n);
  }

  /** A number at the start of a line and one of x, X, × and * after it, with any space around and between, is
      the line's quantity. */
  lemma TimesRead(letters: Letters, before: string, n: Numeral, gap: string, mark: char, rest: string)
    requires Written(n) && ValueOf(n) < TOO_LARGE as real && AllSpace(before) && AllSpace(gap) && IsMark(mark)
    ensures ParseQty(Patterns(letters), before + TextOf(n) + (gap + [mark] + rest)) == ValueOf(n)
  {
    var s := before + TextOf(n) + (gap + [mark] + rest);
    TextTrimmed(n);
    assert s[0] == if before == "" then TextOf(n)[0] else before[0];
    StartsOtherwise(s);
    PrefixAbsent(s);
    TimesMatched(before, n, gap, mark, rest);
    QtyByTimes(Patterns(letters), s, ValueOf(n));
  }

  lemma QtyByPrefix(lx: Lexicon, line: string, v: real)
    requires Submatch(lx.qtyPrefix, line) == Some(v)
    ensures ParseQty(lx, line) == v
  {
  }

  const QTY_WORDS := ["qtd", "qty", "quant", "quantidade"]

  lemma QuantFirst(s: string, long: bool)
    requires SpelledAt("quant", s, 0) && (long <==> SpelledAt("idade", s, 5))
    ensures First(QUANT, s, Match(0, 0, 0), Match(if long then 10 else 5, 0, 0))
  {
    var m0, m1 := Match(0, 0, 0), Match(5, 0, 0);
    WordRun("quant", s, m0);
    WordRun("idade", s, m1);
    if long { OptTakes(Word("idade"), s, m1, Match(10, 0, 0)); } else { OptFirst(Word("idade"), s, m1); }
    CatFirst(Word("quant"), Opt(Word("idade")), s, m0, m1, Match(if long then 10 else 5, 0, 0));
  }

  lemma Differ(u: string, w: string, s: string, k: nat)
    requires SpelledAt(w, s, 0) && k < |u| && k < |w| && Fold(u[k]) != Fold(w[k])
    ensures !SpelledAt(u, s, 0)
  {
    assert Fold(s[0 + k]) == Fold(w[k]);
  }

  lemma LongIsBoth(s: string)
    ensures SpelledAt("quantidade", s, 0) ==> SpelledAt("quant", s, 0) && SpelledAt("idade", s, 5)
  {
    if SpelledAt("quantidade", s, 0) {
      assert forall k :: 0 <= k < 5 ==> "quantidade"[k] == "quant"[k] && "quantidade"[k + 5] == "idade"[k];
      forall k | 0 <= k < 5
        ensures Fold(s[5 + k]) == Fold("idade"[k])
      {
        assert Fold(s[0 + (5 + k)]) == Fold("quantidade"[5 + k]);
      }
      forall k | 0 <= k < 5
        ensures Fold(s[0 + k]) == Fold("quant"[k])
      {
        assert Fold(s[0 + k]) == Fold("quantidade"[k]);
      }
    }
  }

  lemma WordFirst(w: string, s: string)
    requires w in QTY_WORDS && SpelledAt(w, s, 0) && (w == "quant" ==> !SpelledAt("idade", s, 5))
    ensures First(QTY_WORD, s, Match(0, 0, 0), Match(|w|, 0, 0))
  {
    var m := Match(0, 0, 0);
    AnyThree(Word("qtd"), Word("qty"), QUANT);
    WordRun("qtd", s, m);
    WordRun("qty", s, m);
    if w == "qty" {
      Differ("qtd", w, s, 2);
    } else if w != "qtd" {
      Differ("qtd", w, s, 1);
      Differ("qty", w, s, 1);
      LongIsBoth(s);
      QuantFirst(s, w == "quantidade");
    }
    if w == "qtd" {
    } else if w == "qty" {
      AltFirst(Word("qty"), QUANT, s, m, Match(3, 0, 0));
    } else {
      AltFirst(Word("qty"), QUANT, s, m, Match(|w|, 0, 0));
    }
    AltFirst(Word("qtd"), Alt(Word("qty"), QUANT), s, m, Match(|w|, 0, 0));
  }

  const PREFIX_END := Cat(Star(S), Cat(Opt(Chr(OneOf(":x×*"))), Cat(Star(S), Group(NUMBER))))

  // Spaces, possibly a mark and more spaces, and the numeral.
  lemma PrefixEndFirst(s: string, m: Match, k: nat, marked: bool, lo: nat, p: nat, e: nat)
    requires m.pos <= k <= lo && NumeralAt(s, lo, p, e) && (forall n :: m.pos <= n < k ==> IsReSpace(s[n]))
    requires if marked then k < lo && InClass(OneOf(":x×*"), s[k]) else k == lo
    requires forall n :: k < n < lo ==> IsReSpace(s[n])
    ensures First(PREFIX_END, s, m, Match(e, lo, e))
  {
    var m1, m2, m3, m' := m.(pos := k), m.(pos := if marked then k + 1 else k), m.(pos := lo), Match(e, lo, e);
    assert IsDigit(s[lo]);
    NumberFirst(s, m3, p, e);
    SpacesFirst(s, m2, lo);
    CatFirst(Star(S), Group(NUMBER), s, m2, m3, m');
    MarksAre(s[k]);
    if marked {
      ChrFirst(OneOf(":x×*"), s, m1);
      OptTakes(Chr(OneOf(":x×*")), s, m1, m2);
    } else {
      ChrFails(OneOf(":x×*"), s, m1);
      OptFirst(Chr(OneOf(":x×*")), s, m1);
    }
    CatFirst(Opt(Chr(OneOf(":x×*"))), Cat(Star(S), Group(NUMBER)), s, m1, m2, m');
    SpacesFirst(s, m, k);
    CatFirst(Star(S), Cat(Opt(Chr(OneOf(":x×*"))), Cat(Star(S), Group(NUMBER))), s, m, m1, m');
  }

  // What may stand between a quantity word and its number: spaces, or a mark with spaces around it.
  datatype Link = Spaces(gap: string) | Marked(before: string, mark: char, after: string)

  predicate IsLink(l: Link) {
    match l
    case Spaces(gap) => AllSpace(gap)
    case Marked(before, mark, after) => AllSpace(before) && (IsMark(mark) || mark == ':') && AllSpace(after)
  }

  function LinkText(l: Link): string {
    match l
    case Spaces(gap) => gap
    case Marked(before, mark, after) => before + [mark] + after
  }

  lemma LinkedFirst(s: string, w: nat, l: Link, p: nat, e: nat)
    requires IsLink(l) && w + |LinkText(l)| <= |s| && s[w..w + |LinkText(l)|] == LinkText(l)
    requires NumeralAt(s, w + |LinkText(l)|, p, e)
    ensures First(PREFIX_END, s, Match(w, 0, 0), Match(e, w + |LinkText(l)|, e))
  {
    var t, lo := LinkText(l), w + |LinkText(l)|;
    assert forall n :: w <= n < lo ==> s[n] == t[n - w];
    match l
    case Spaces(gap) => PrefixEndFirst(s, Match(w, 0, 0), lo, false, lo, p, e);
    case Marked(before, mark, after) =>
      var k := w + |before|;
      assert s[k] == t[|before|] == mark;
      MarksAre(mark);
      forall n | k < n < lo ensures IsReSpace(s[n]) { assert t[n - w] == after[n - k - 1]; }
      PrefixEndFirst(s, Match(w, 0, 0), k, true, lo, p, e);
  }

  // What comes after a quantity word.
  predicate LinkChar(c: char) {
    IsReSpace(c) || IsDigit(c) || IsMark(c) || c == ':'
  }

  lemma LinkHead(l: Link, n: Numeral)
    requires IsLink(l) && Written(n)
    ensures var t := LinkText(l) + TextOf(n); t != "" && LinkChar(t[0])
  {
    var t := LinkText(l) + TextOf(n);
    TextTrimmed(n);
    match l
    case Spaces(gap) => assert t[0] == if gap == "" then TextOf(n)[0] else gap[0];
    case Marked(before, mark, after) => assert t[0] == if before == "" then mark else before[0];
  }

  lemma LinkIsNoLetter(c: char)
    requires LinkChar(c)
    ensures Fold(c) != 'i'
  {
    MarksAre(c);
  }

  function PrefixLine(word: string, l: Link, n: Numeral, rest: string): string {
    word + LinkText(l) + TextOf(n) + rest
  }

  lemma PrefixCut(word: string, l: Link, n: Numeral, rest: string)
    ensures var s, w, lo := PrefixLine(word, l, n, rest), |word|, |word| + |LinkText(l)|;
      var e := lo + |TextOf(n)|;
      s[..w] == word && s[w..lo] == LinkText(l) && s[lo..e] == TextOf(n) && s[e..] == rest
  {
  }

  lemma LinkAt(s: string, w: nat, lo: nat, e: nat, l: Link, n: Numeral)
    requires IsLink(l) && Written(n) && w <= lo <= e <= |s| && s[w..lo] == LinkText(l) && s[lo..e] == TextOf(n)
    requires EndsNumeral(n, s[e..])
    ensures First(PREFIX_END, s, Match(w, 0, 0), Match(e, lo, e))
  {
    NumeralCut(n, s, lo, e);
    LinkedFirst(s, w, l, lo + |n.whole|, e);
  }

  lemma LinkStands(word: string, l: Link, n: Numeral, rest: string)
    requires IsLink(l) && Written(n) && EndsNumeral(n, rest)
    ensures var s, lo := PrefixLine(word, l, n, rest), |word| + |LinkText(l)|;
      && First(PREFIX_END, s, Match(|word|, 0, 0), Match(lo + |TextOf(n)|, lo, lo + |TextOf(n)|))
      && s[lo..lo + |TextOf(n)|] == TextOf(n)
  {
    var lo := |word| + |LinkText(l)|;
    PrefixCut(word, l, n, rest);
    LinkAt(PrefixLine(word, l, n, rest), |word|, lo, lo + |TextOf(n)|, l, n);
  }

  lemma SpelledCut(w: string, word: string, s: string, i: nat)
    requires |word| == |w| && SpelledAt(w, word, 0) && i + |w| <= |s| && s[i..i + |w|] == word
    ensures SpelledAt(w, s, i)
  {
    forall k | 0 <= k < |w| ensures Fold(s[i + k]) == Fold(w[k]) {
      assert s[i + k] == s[i..i + |w|][k] && Fold(word[0 + k]) == Fold(w[k]);
    }
  }

  lemma NoLonger(word: string, l: Link, n: Numeral, rest: string)
    requires IsLink(l) && Written(n)
    ensures !SpelledAt("idade", PrefixLine(word, l, n, rest), |word|)
  {
    var s, t := PrefixLine(word, l, n, rest), LinkText(l) + TextOf(n);
    LinkHead(l, n);
    assert s[|word|] == t[0];
    LinkIsNoLetter(t[0]);
    OtherLetter("idade", s, |word|);
  }

  lemma WordStands(w: string, word: string, l: Link, n: Numeral, rest: string)
    requires w in QTY_WORDS && |word| == |w| && SpelledAt(w, word, 0) && IsLink(l) && Written(n)
    ensures First(QTY_WORD, PrefixLine(word, l, n, rest), Match(0, 0, 0), Match(|w|, 0, 0))
  {
    var s := PrefixLine(word, l, n, rest);
    assert s[0..0 + |w|] == word;
    SpelledCut(w, word, s, 0);
    if w == "quant" { NoLonger(word, l, n, rest); }
    WordFirst(w, s);
  }

  lemma PrefixAt(s: string, w: nat, lo: nat, e: nat)
    requires First(QTY_WORD, s, Match(0, 0, 0), Match(w, 0, 0)) && First(PREFIX_END, s, Match(w, 0, 0), Match(e, lo, e))
    ensures Find(QTY_PREFIX, s, 0) == Found(0, Match(e, lo, e))
  {
    CatFirst(QTY_WORD, PREFIX_END, s, Match(0, 0, 0), Match(w, 0, 0), Match(e, lo, e));
    BolFirst(Cat(QTY_WORD, PREFIX_END), s, Match(e, lo, e));
  }

  /** qtd, qty, quant or quantidade at the start of a line, in capitals or not, and a number after it, with
      spaces or one of : x × * between, is the line's quantity, whatever else the line says. */
  lemma PrefixRead(letters: Letters, w: string, word: string, l: Link, n: Numeral, rest: string)
    requires w in QTY_WORDS && |word| == |w| && SpelledAt(w, word, 0) && IsLink(l)
    requires Written(n) && ValueOf(n) < TOO_LARGE as real && EndsNumeral(n, rest)
    ensures ParseQty(Patterns(letters), word + LinkText(l) + TextOf(n) + rest) == ValueOf(n)
  {
    var s, lo := PrefixLine(word, l, n, rest), |word| + |LinkText(l)|;
    LinkStands(word, l, n, rest);
    WordStands(w, word, l, n, rest);
    PrefixAt(s, |word|, lo, lo + |TextOf(n)|);
    CaptureRead(QTY_PREFIX, s, lo, lo + |TextOf(n)|);
    NumeralParses(n);
    QtyByPrefix(Patterns(letters), s, ValueOf(n));
  }

  predicate NoneAt(r: Re, s: string, k: nat) {
    k <= |s| && Run(r, s, Match(k, k, k)) == []
  }

  // Where nothing matches before b the search goes on from b.
  lemma {:induction false} FindFrom(r: Re, s: string, i: nat, b: nat)
    requires i <= b <= |s| && forall k :: i <= k < b ==> NoneAt(r, s, k)
    ensures Find(r, s, i) == Find(r, s, b)
    decreases b - i
  {
    if i < b {
      assert NoneAt(r, s, i);
      FindFrom(r, s, i + 1, b);
    }
  }

  const INLINE_END := Cat(Star(S), Cat(QTY_UNIT, Edge))

  // An inline quantity starts with a digit.
  lemma InlineNotHere(s: string, k: nat)
    requires k < |s| && !IsDigit(s[k])
    ensures Run(QTY_INLINE, s, Match(k, k, k)) == []
  {
    var m := Match(k, k, k);
    PlusFails(s, m);
    CatFails(Plus(D), Opt(FRACTION), s, m);
    GroupFails(NUMBER, s, m);
    CatFails(Group(NUMBER), INLINE_END, s, m);
    RunCat(Edge, Cat(Group(NUMBER), INLINE_END), s, m);
    if Run(Edge, s, m) != [] { OneEach(Cat(Group(NUMBER), INLINE_END), s, k, m); }
  }

  lemma EdgeFirst(s: string, m: Match)
    requires m.pos <= |s| && WordAt(s, m.pos - 1) != WordAt(s, m.pos)
    ensures First(Edge, s, m, m)
  {
  }

  lemma EdgeFails(s: string, m: Match)
    requires m.pos <= |s| && WordAt(s, m.pos - 1) == WordAt(s, m.pos)
    ensures Run(Edge, s, m) == []
  {
  }

  // A part that matches in a given way, where the edge is.
  lemma EdgeAfter(a: Re, s: string, m: Match, m': Match)
    requires First(a, s, m, m') && m'.pos <= |s| && WordAt(s, m'.pos - 1) != WordAt(s, m'.pos)
    ensures First(Cat(a, Edge), s, m, m')
  {
    EdgeFirst(s, m');
    CatFirst(a, Edge, s, m, m', m');
  }

  datatype Unit = X | Un | Unid | Pc | Pcs

  function Name(u: Unit): string {
    match u
    case X => "x"
    case Un => "un"
    case Unid => "unid"
    case Pc => "pc"
    case Pcs => "pcs"
  }

  // A unit is spelled at i, in letters, and ends there.
  predicate UnitAt(u: Unit, s: string, i: nat) {
    && SpelledAt(Name(u), s, i) && WordAt(s, i + |Name(u)| - 1) && !WordAt(s, i + |Name(u)|)
    && (u == Pc ==> !SpelledAt("s", s, i + 2))
  }

  lemma AnyFour(a: Re, b: Re, c: Re, d: Re)
    ensures AnyOf([a, b, c, d]) == Alt(a, Alt(b, Alt(c, d)))
  {
    assert [a, b, c, d][1..] == [b, c, d];
    AnyThree(b, c, d);
  }

  lemma {:induction false} EachConcat(r: Re, s: string, lo: nat, a: seq<Match>, b: seq<Match>)
    requires lo <= |s| && Within(s, lo, a) && Within(s, lo, b)
    ensures Within(s, lo, a + b) && Each(r, s, lo, a + b) == Each(r, s, lo, a) + Each(r, s, lo, b)
    decreases |a|
  {
    if a == [] {
      assert a + b == b;
    } else {
      assert (a + b)[1..] == a[1..] + b && (a + b)[0] == a[0];
      EachConcat(r, s, lo, a[1..], b);
    }
  }

  // An alternative that comes to nothing after all leaves it to the other one.
  lemma AltThen(a: Re, b: Re, r: Re, s: string, m: Match)
    requires m.pos <= |s|
    ensures Run(Cat(Alt(a, b), r), s, m) == Run(Cat(a, r), s, m) + Run(Cat(b, r), s, m)
  {
    RunCat(Alt(a, b), r, s, m);
    RunCat(a, r, s, m);
    RunCat(b, r, s, m);
    EachConcat(r, s, m.pos, Run(a, s, m), Run(b, s, m));
  }

  lemma AltFirstThen(a: Re, b: Re, r: Re, s: string, m: Match, m': Match)
    requires First(Cat(a, r), s, m, m') || (m.pos <= |s| && Run(Cat(a, r), s, m) == [] && First(Cat(b, r), s, m, m'))
    ensures First(Cat(Alt(a, b), r), s, m, m')
  {
    AltThen(a, b, r, s, m);
  }

  lemma EdgeNowhere(a: Re, s: string, m: Match, ms: seq<Match>)
    requires m.pos <= |s| && Run(a, s, m) == ms && |ms| <= 1
    requires ms != [] ==> m.pos <= ms[0].pos <= |s| && WordAt(s, ms[0].pos - 1) == WordAt(s, ms[0].pos)
    ensures Run(Cat(a, Edge), s, m) == []
  {
    if ms == [] {
      CatFails(a, Edge, s, m);
    } else {
      assert ms == [ms[0]];
      EdgeFails(s, ms[0]);
      RunCat(a, Edge, s, m);
      OneEach(Edge, s, m.pos, ms[0]);
    }
  }

  lemma WordGoesOn(w: string, s: string, m: Match)
    requires w != "" && SpelledAt(w, s, m.pos) && WordAt(s, m.pos + |w| - 1) == WordAt(s, m.pos + |w|)
    ensures Run(Cat(Word(w), Edge), s, m) == []
  {
    WordRun(w, s, m);
    EdgeNowhere(Word(w), s, m, [m.(pos := m.pos + |w|)]);
  }

  // A word that is not spelled there, or does not end there, is no unit.
  lemma WordEdgeFails(w: string, s: string, m: Match)
    requires w != "" && m.pos <= |s|
    requires SpelledAt(w, s, m.pos) ==> WordAt(s, m.pos + |w| - 1) == WordAt(s, m.pos + |w|)
    ensures Run(Cat(Word(w), Edge), s, m) == []
  {
    if SpelledAt(w, s, m.pos) {
      WordGoesOn(w, s, m);
    } else {
      WordRun(w, s, m);
      CatFails(Word(w), Edge, s, m);
    }
  }

  lemma WordEdgeFirst(w: string, s: string, m: Match)
    requires w != "" && SpelledAt(w, s, m.pos) && WordAt(s, m.pos + |w| - 1) && !WordAt(s, m.pos + |w|)
    ensures First(Cat(Word(w), Edge), s, m, m.(pos := m.pos + |w|))
  {
    WordRun(w, s, m);
    EdgeAfter(Word(w), s, m, m.(pos := m.pos + |w|));
  }

  const PCS := Cat(Word("pc"), Opt(Word("s")))

  lemma PcsFirst(u: Unit, s: string, m: Match)
    requires UnitAt(u, s, m.pos) && (u == Pc || u == Pcs)
    ensures First(Cat(PCS, Edge), s, m, m.(pos := m.pos + |Name(u)|))
  {
    var m1 := m.(pos := m.pos + 2);
    assert SpelledAt("pc", s, m.pos) by {
      assert forall k :: 0 <= k < 2 ==> "pc"[k] == Name(u)[k];
      forall k | 0 <= k < 2
        ensures Fold(s[m.pos + k]) == Fold("pc"[k])
      {
        assert Fold(s[m.pos + k]) == Fold(Name(u)[k]);
      }
    }
    WordRun("pc", s, m);
    WordRun("s", s, m1);
    if u == Pc {
      OptFirst(Word("s"), s, m1);
    } else {
      assert Fold(s[m.pos + 2]) == Fold(Name(u)[2]);
      OptTakes(Word("s"), s, m1, m.(pos := m.pos + 3));
    }
    CatFirst(Word("pc"), Opt(Word("s")), s, m, m1, m.(pos := m.pos + |Name(u)|));
    EdgeAfter(PCS, s, m, m.(pos := m.pos + |Name(u)|));
  }

  lemma NoMark(c: char)
    requires Fold(c) == 'u' || Fold(c) == 'p'
    ensures !IsMark(c)
  {
    MarksAre(c);
  }

  lemma MarkUnit(s: string, m: Match)
    requires UnitAt(X, s, m.pos)
    ensures First(Cat(TIMES, Edge), s, m, m.(pos := m.pos + 1))
  {
    assert Fold(s[m.pos + 0]) == Fold("x"[0]);
    MarksAre(s[m.pos]);
    ChrFirst(OneOf("x×*"), s, m);
    EdgeAfter(TIMES, s, m, m.(pos := m.pos + 1));
  }

  lemma NotMarkUnit(u: Unit, s: string, m: Match)
    requires UnitAt(u, s, m.pos) && u != X
    ensures Run(Cat(TIMES, Edge), s, m) == []
  {
    assert Fold(s[m.pos + 0]) == Fold(Name(u)[0]);
    NoMark(s[m.pos]);
    ChrFails(OneOf("x×*"), s, m);
    CatFails(TIMES, Edge, s, m);
  }

  lemma UnIsNotUnid(s: string, m: Match)
    requires UnitAt(Unid, s, m.pos)
    ensures Run(Cat(Word("un"), Edge), s, m) == []
  {
    assert Fold(s[m.pos + 1]) == Fold("unid"[1]) && Fold(s[m.pos + 2]) == Fold("unid"[2]);
    WordEdgeFails("un", s, m);
  }

  lemma PcIsNoUn(u: Unit, s: string, m: Match)
    requires UnitAt(u, s, m.pos) && (u == Pc || u == Pcs)
    ensures Run(Cat(Word("un"), Edge), s, m) == [] && Run(Cat(Word("unid"), Edge), s, m) == []
  {
    assert Fold(s[m.pos + 0]) == Fold(Name(u)[0]);
    OtherLetter("un", s, m.pos);
    OtherLetter("unid", s, m.pos);
    WordEdgeFails("un", s, m);
    WordEdgeFails("unid", s, m);
  }

  const UN_UNITS := Alt(Word("un"), Alt(Word("unid"), PCS))

  lemma UnFirst(s: string, m: Match)
    requires UnitAt(Un, s, m.pos)
    ensures First(Cat(UN_UNITS, Edge), s, m, m.(pos := m.pos + 2))
  {
    WordEdgeFirst("un", s, m);
    AltFirstThen(Word("un"), Alt(Word("unid"), PCS), Edge, s, m, m.(pos := m.pos + 2));
  }

  lemma UnidFirst(s: string, m: Match)
    requires UnitAt(Unid, s, m.pos)
    ensures First(Cat(UN_UNITS, Edge), s, m, m.(pos := m.pos + 4))
  {
    var m' := m.(pos := m.pos + 4);
    UnIsNotUnid(s, m);
    WordEdgeFirst("unid", s, m);
    AltFirstThen(Word("unid"), PCS, Edge, s, m, m');
    AltFirstThen(Word("un"), Alt(Word("unid"), PCS), Edge, s, m, m');
  }

  lemma PieceUnitFirst(u: Unit, s: string, m: Match)
    requires UnitAt(u, s, m.pos) && (u == Pc || u == Pcs)
    ensures First(Cat(UN_UNITS, Edge), s, m, m.(pos := m.pos + |Name(u)|))
  {
    var m' := m.(pos := m.pos + |Name(u)|);
    PcIsNoUn(u, s, m);
    PcsFirst(u, s, m);
    AltFirstThen(Word("unid"), PCS, Edge, s, m, m');
    AltFirstThen(Word("un"), Alt(Word("unid"), PCS), Edge, s, m, m');
  }

  lemma UnitsAre()
    ensures QTY_UNIT == Alt(TIMES, UN_UNITS)
  {
    AnyFour(TIMES, Word("un"), Word("unid"), PCS);
  }

  // A unit is matched to its end, though a shorter one may be tried before.
  lemma UnitFirst(u: Unit, s: string, m: Match)
    requires UnitAt(u, s, m.pos)
    ensures First(Cat(QTY_UNIT, Edge), s, m, m.(pos := m.pos + |Name(u)|))
  {
    UnitsAre();
    if u == X {
      MarkUnit(s, m);
    } else {
      NotMarkUnit(u, s, m);
      if u == Un { UnFirst(s, m); } else if u == Unid { UnidFirst(s, m); } else { PieceUnitFirst(u, s, m); }
    }
    AltFirstThen(TIMES, UN_UNITS, Edge, s, m, m.(pos := m.pos + |Name(u)|));
  }

  lemma InlineEndFirst(s: string, m: Match, k: nat, u: Unit)
    requires m.pos <= k < |s| && (forall n :: m.pos <= n < k ==> IsReSpace(s[n])) && UnitAt(u, s, k)
    ensures First(INLINE_END, s, m, m.(pos := k + |Name(u)|))
  {
    var m1 := m.(pos := k);
    UnitFirst(u, s, m1);
    assert Fold(s[k + 0]) == Fold(Name(u)[0]);
    SpacesFirst(s, m, k);
    CatFirst(Star(S), Cat(QTY_UNIT, Edge), s, m, m1, m.(pos := k + |Name(u)|));
  }

  // The first numeral is at lo, no word character before it, and a unit at k after it.
  predicate InlineAt(s: string, lo: nat, p: nat, e: nat, k: nat, u: Unit) {
    && NumeralAt(s, lo, p, e) && !WordAt(s, lo - 1) && (forall n :: 0 <= n < lo ==> !IsDigit(s[n]))
    && e <= k < |s| && (forall n :: e <= n < k ==> IsReSpace(s[n])) && UnitAt(u, s, k)
  }

  lemma InlineFound(s: string, lo: nat, p: nat, e: nat, k: nat, u: Unit)
    requires InlineAt(s, lo, p, e, k, u)
    ensures Find(QTY_INLINE, s, 0) == Found(lo, Match(k + |Name(u)|, lo, e))
  {
    var m0, m1, m' := Match(lo, lo, lo), Match(e, lo, e), Match(k + |Name(u)|, lo, e);
    assert IsDigit(s[lo]);
    InlineEndFirst(s, m1, k, u);
    NumberFirst(s, m0, p, e);
    CatFirst(Group(NUMBER), INLINE_END, s, m0, m1, m');
    EdgeFirst(s, m0);
    CatFirst(Edge, Cat(Group(NUMBER), INLINE_END), s, m0, m0, m');
    forall n | 0 <= n < lo ensures NoneAt(QTY_INLINE, s, n) { InlineNotHere(s, n); }
    FindFrom(QTY_INLINE, s, 0, lo);
  }

  // What a times pattern may pass before its mark.
  predicate NumChar(c: char) {
    IsReSpace(c) || IsDigit(c) || IsPoint(c)
  }

  lemma NumCharsAre()
    ensures OnlyHits(Star(S), NumChar) && OnlyHits(Group(NUMBER), NumChar) && MustHit(Group(NUMBER), IsDigit)
  {
    forall c ensures InClass(OneOf(".,"), c) ==> NumChar(c) { PointsAre(c); }
    assert OnlyHits(D, NumChar) && MustHit(D, IsDigit);
    assert OnlyHits(Chr(OneOf(".,")), NumChar);
    assert OnlyHits(FRACTION, NumChar);
    assert OnlyHits(Plus(D), NumChar) && MustHit(Plus(D), IsDigit);
    assert OnlyHits(NUMBER, NumChar) && MustHit(NUMBER, IsDigit);
  }

  // A match of the times pattern passes a digit and then a mark, and nothing but numbers and spaces before it.
  lemma TimesTakes(s: string, m': Match) returns (k: nat)
    requires m' in Run(Cat(Star(S), Cat(Group(NUMBER), TIMES_END)), s, Match(0, 0, 0))
    ensures k < |s| && IsMark(s[k]) && OnlyIn(s, 0, k, NumChar) && HitIn(s, 0, k, IsDigit)
  {
    var m := Match(0, 0, 0);
    NumCharsAre();
    var m1 := CatInv(Star(S), Cat(Group(NUMBER), TIMES_END), s, m, m');
    var m2 := CatInv(Group(NUMBER), TIMES_END, s, m1, m');
    var m3 := CatInv(Star(S), Cat(TIMES, Star(S)), s, m2, m');
    var m4 := CatInv(TIMES, Star(S), s, m3, m');
    OnlyHitsStays(Star(S), s, m, m1, NumChar);
    OnlyHitsStays(Group(NUMBER), s, m1, m2, NumChar);
    OnlyHitsStays(Star(S), s, m2, m3, NumChar);
    MustHitHits(Group(NUMBER), s, m1, m2, IsDigit);
    var d :| m1.pos <= d < m2.pos && d < |s| && IsDigit(s[d]);
    assert 0 <= d < m3.pos;
    k := m3.pos;
  }

  // Where the first other character is no mark, or no digit stands before it, there is no such match.
  lemma TimesAbsent(s: string, e: nat)
    requires e <= |s| && OnlyIn(s, 0, e, NumChar)
    requires e < |s| ==> !NumChar(s[e]) && (IsMark(s[e]) ==> !HitIn(s, 0, e, IsDigit))
    ensures Find(QTY_TIMES, s, 0) == NotFound
  {
    var r, m := Cat(Star(S), Cat(Group(NUMBER), TIMES_END)), Match(0, 0, 0);
    if Run(r, s, m) != [] {
      var k := TimesTakes(s, Run(r, s, m)[0]);
      MarksAre(s[k]);
    }
    BolFails(r, s);
  }

  function FirstOther(s: string, i: nat): (e: nat)
    requires i <= |s| && OnlyIn(s, 0, i, NumChar)
    ensures i <= e <= |s| && OnlyIn(s, 0, e, NumChar) && (e < |s| ==> !NumChar(s[e]))
    decreases |s| - i
  {
    if i < |s| && NumChar(s[i]) then FirstOther(s, i + 1) else i
  }

  // A quantity with its unit: what stands before it has no digit and no word character right before the number.
  datatype Inline = Inline(before: string, n: Numeral, gap: string, unit: string, rest: string)

  function InlineText(q: Inline): string {
    q.before + TextOf(q.n) + (q.gap + q.unit + q.rest)
  }

  predicate IsInline(q: Inline, u: Unit) {
    && (forall k :: 0 <= k < |q.before| ==> !IsDigit(q.before[k]))
    && (q.before != "" ==> !IsWord(q.before[|q.before| - 1]))
    && Written(q.n) && AllSpace(q.gap)
    && |q.unit| == |Name(u)| && SpelledAt(Name(u), q.unit, 0) && IsWord(q.unit[|Name(u)| - 1])
    && (q.rest != "" ==> !IsWord(q.rest[0]) && (u == Pc ==> Fold(q.rest[0]) != 's'))
  }

  // How such a text lies in a line.
  predicate InlineCut(s: string, q: Inline, lo: nat, e: nat, k: nat) {
    && lo <= e <= k && k + |q.unit| <= |s|
    && s[..lo] == q.before && s[lo..e] == TextOf(q.n) && s[e..k] == q.gap
    && s[k..k + |q.unit|] == q.unit && s[k + |q.unit|..] == q.rest
  }

  lemma FiveCut(a: string, t: string, g: string, u: string, r: string)
    ensures var s, e, k := a + t + (g + u + r), |a| + |t|, |a| + |t| + |g|;
      && s[..|a|] == a && s[|a|..e] == t && s[e..k] == g
      && s[k..k + |u|] == u && s[k + |u|..] == r
  {
    var s, e, k, tail := a + t + (g + u + r), |a| + |t|, |a| + |t| + |g|, g + u + r;
    assert s[e..] == tail;
    assert tail[..|g|] == g && tail[|g|..|g| + |u|] == u && tail[|g| + |u|..] == r;
    assert s[e..k] == s[e..][..|g|] && s[k..k + |u|] == s[e..][|g|..|g| + |u|] && s[k + |u|..] == s[e..][|g| + |u|..];
  }

  lemma InlineTextCut(q: Inline) returns (lo: nat, e: nat, k: nat)
    ensures InlineCut(InlineText(q), q, lo, e, k)
  {
    FiveCut(q.before, TextOf(q.n), q.gap, q.unit, q.rest);
    lo, e, k := |q.before|, |q.before| + |TextOf(q.n)|, |q.before| + |TextOf(q.n)| + |q.gap|;
  }

  lemma UnitEnds(s: string, q: Inline, u: Unit, lo: nat, e: nat, k: nat)
    requires IsInline(q, u) && InlineCut(s, q, lo, e, k)
    ensures !WordAt(s, k + |q.unit|) && (u == Pc ==> !SpelledAt("s", s, k + 2))
  {
    var x := k + |q.unit|;
    if x < |s| { assert s[x] == s[x..][0] == q.rest[0]; }
    if u == Pc { OtherLetter("s", s, k + 2); }
  }

  lemma UnitLies(s: string, q: Inline, u: Unit, lo: nat, e: nat, k: nat)
    requires IsInline(q, u) && InlineCut(s, q, lo, e, k)
    ensures k < |s| && UnitAt(u, s, k) && s[k] == q.unit[0]
  {
    var x := k + |q.unit|;
    SpelledCut(Name(u), q.unit, s, k);
    UnitEnds(s, q, u, lo, e, k);
    assert s[k] == s[k..x][0] && s[x - 1] == s[k..x][x - 1 - k];
  }

  lemma UnitIsOther(q: Inline, u: Unit)
    requires IsInline(q, u)
    ensures !NumChar(q.unit[0]) && (u != X ==> !IsMark(q.unit[0]))
  {
    assert Fold(q.unit[0 + 0]) == Fold(Name(u)[0]);
    if u != X { NoMark(q.unit[0]); }
  }

  lemma InlineNumeral(s: string, q: Inline, u: Unit, lo: nat, e: nat, k: nat)
    requires IsInline(q, u) && InlineCut(s, q, lo, e, k)
    ensures NumeralAt(s, lo, lo + |q.n.whole|, e)
  {
    UnitIsOther(q, u);
    UnitLies(s, q, u, lo, e, k);
    if e < k { assert s[e] == s[e..k][0]; }
    NumeralCut(q.n, s, lo, e);
  }

  lemma InlineStands(s: string, q: Inline, u: Unit, lo: nat, e: nat, k: nat)
    requires IsInline(q, u) && InlineCut(s, q, lo, e, k)
    ensures InlineAt(s, lo, lo + |q.n.whole|, e, k, u)
  {
    InlineNumeral(s, q, u, lo, e, k);
    UnitLies(s, q, u, lo, e, k);
    forall n | 0 <= n < lo ensures !IsDigit(s[n]) { assert s[n] == s[..lo][n]; }
    forall n | e <= n < k ensures IsReSpace(s[n]) { assert s[n] == s[e..k][n - e]; }
    if lo > 0 { assert s[lo - 1] == s[..lo][lo - 1]; }
  }

  lemma InlineMatched(s: string, q: Inline, u: Unit, lo: nat, e: nat, k: nat)
    requires IsInline(q, u) && InlineCut(s, q, lo, e, k)
    ensures Submatch(QTY_INLINE, s) == InRange(ValueOf(q.n))
  {
    InlineStands(s, q, u, lo, e, k);
    InlineFound(s, lo, lo + |q.n.whole|, e, k, u);
    CaptureRead(QTY_INLINE, s, lo, e);
    NumeralParses(q.n);
  }

  lemma NumeralChars(n: Numeral)
    requires Written(n)
    ensures forall k :: 0 <= k < |TextOf(n)| ==> NumChar(TextOf(n)[k])
  {
  }

  // The times pattern does not see it: other text comes first,
  lemma OtherFirst(s: string, q: Inline, u: Unit, lo: nat)
    requires IsInline(q, u) && lo <= |s| && s[..lo] == q.before
    requires exists k :: 0 <= k < |q.before| && !NumChar(q.before[k])
    ensures Find(QTY_TIMES, s, 0) == NotFound
  {
    var e := FirstOther(q.before, 0);
    forall n | 0 <= n < lo ensures s[n] == q.before[n] { assert s[n] == s[..lo][n]; }
    TimesAbsent(s, e);
  }

  // or the unit is no mark.
  lemma UnitIsNoMark(s: string, q: Inline, u: Unit, lo: nat, e: nat, k: nat)
    requires IsInline(q, u) && InlineCut(s, q, lo, e, k) && u != X
    requires forall n :: 0 <= n < |q.before| ==> NumChar(q.before[n])
    ensures Find(QTY_TIMES, s, 0) == NotFound
  {
    UnitLies(s, q, u, lo, e, k);
    UnitIsOther(q, u);
    NumeralChars(q.n);
    forall n | 0 <= n < k ensures NumChar(s[n]) {
      if n < lo {
        assert s[n] == s[..lo][n];
      } else if n < e {
        assert s[n] == s[lo..e][n - lo];
      } else {
        assert s[n] == s[e..k][n - e];
      }
    }
    TimesAbsent(s, k);
  }

  lemma QtyByInline(lx: Lexicon, line: string, v: real)
    requires Find(lx.qtyPrefix, line, 0) == NotFound && Find(lx.qtyTimes, line, 0) == NotFound
    requires Submatch(lx.qtyInline, line) == Some(v)
    ensures ParseQty(lx, line) == v
  {
  }

  lemma InlineReadAt(letters: Letters, s: string, q: Inline, u: Unit, lo: nat, e: nat, k: nat)
    requires IsInline(q, u) && InlineCut(s, q, lo, e, k) && NoQtyWord(s) && ValueOf(q.n) < TOO_LARGE as real
    requires u == X ==> exists k :: 0 <= k < |q.before| && !NumChar(q.before[k])
    ensures ParseQty(Patterns(letters), s) == ValueOf(q.n)
  {
    PrefixAbsent(s);
    if k :| 0 <= k < |q.before| && !NumChar(q.before[k]) {
      OtherFirst(s, q, u, lo);
    } else {
      UnitIsNoMark(s, q, u, lo, e, k);
    }
    InlineMatched(s, q, u, lo, e, k);
    QtyByInline(Patterns(letters), s, ValueOf(q.n));
  }

  /** A number with x, un, unid, pc or pcs after it is the line's quantity, wherever it stands after text without
      digits, if the line starts with no quantity word. */
  lemma InlineRead(letters: Letters, q: Inline, u: Unit)
    requires IsInline(q, u) && (u == X ==> exists k :: 0 <= k < |q.before| && !NumChar(q.before[k]))
    requires NoQtyWord(InlineText(q)) && ValueOf(q.n) < TOO_LARGE as real
    ensures ParseQty(Patterns(letters), InlineText(q)) == ValueOf(q.n)
  {
    var lo, e, k := InlineTextCut(q);
    InlineReadAt(letters, InlineText(q), q, u, lo, e, k);
  }

  // Barcodes.

  lemma DigitsFirst(s: string, m: Match)
    requires DigitsIn(s, m.pos, m.pos + 2)
    ensures First(DD, s, m, m.(pos := m.pos + 2))
  {
    ChrFirst(Digit, s, m);
    ChrFirst(Digit, s, m.(pos := m.pos + 1));
    CatFirst(D, D, s, m, m.(pos := m.pos + 1), m.(pos := m.pos + 2));
  }

  lemma EightFirst(s: string)
    requires DigitsIn(s, 0, 8)
    ensures First(Cat(Cat(DD, DD), Cat(DD, DD)), s, Match(0, 0, 0), Match(8, 0, 0))
  {
    DigitsFirst(s, Match(0, 0, 0));
    DigitsFirst(s, Match(2, 0, 0));
    DigitsFirst(s, Match(4, 0, 0));
    DigitsFirst(s, Match(6, 0, 0));
    CatFirst(DD, DD, s, Match(0, 0, 0), Match(2, 0, 0), Match(4, 0, 0));
    CatFirst(DD, DD, s, Match(4, 0, 0), Match(6, 0, 0), Match(8, 0, 0));
    CatFirst(Cat(DD, DD), Cat(DD, DD), s, Match(0, 0, 0), Match(4, 0, 0), Match(8, 0, 0));
  }

  lemma BarcodeFound(s: string, e: nat, p: nat)
    requires 8 <= e && Stretch(Digit, s, 0, e) && Stretch(Space, s, e, p)
    ensures Find(BARCODE, s, 0) == Found(0, Match(p, 0, 0))
  {
    var eight := Cat(Cat(DD, DD), Cat(DD, DD));
    EightFirst(s);
    StarFirst(Digit, s, Match(8, 0, 0), e);
    StarFirst(Space, s, Match(e, 0, 0), p);
    CatFirst(Star(D), Star(S), s, Match(8, 0, 0), Match(e, 0, 0), Match(p, 0, 0));
    CatFirst(eight, Cat(Star(D), Star(S)), s, Match(0, 0, 0), Match(8, 0, 0), Match(p, 0, 0));
    BolFirst(Cat(eight, Cat(Star(D), Star(S))), s, Match(p, 0, 0));
  }

  /** A product name loses the barcode of eight digits or more in front of it, and nothing else. */
  lemma BarcodeStripped(letters: Letters, code: string, gap: string, name: string)
    requires AllDigits(code) && |code| >= 8 && (forall k :: 0 <= k < |gap| ==> IsReSpace(gap[k]))
    requires name == "" || (!IsReSpace(name[0]) && (gap != "" || !IsDigit(name[0])))
    ensures ProductName(Patterns(letters), code + gap + name) == TrimSpace(name)
  {
    var s, e, p := code + gap + name, |code|, |code| + |gap|;
    forall k | 0 <= k < e ensures IsDigit(s[k]) { assert s[k] == code[k]; }
    forall k | e <= k < p ensures IsReSpace(s[k]) { assert s[k] == gap[k - e]; }
    assert e < |s| ==> s[e] == if gap != "" then gap[0] else name[0];
    assert p < |s| ==> s[p] == name[0];
    BarcodeFound(s, e, p);
    BolOnly(Cat(Cat(Cat(DD, DD), Cat(DD, DD)), Cat(Star(D), Star(S))), s, p);
    assert s[p..] == name;
    Stripped(s, p);
  }

  lemma FourTaken(s: string, m: Match, m': Match)
    requires m.pos <= |s| && m' in Run(Cat(DD, DD), s, m)
    ensures m'.pos == m.pos + 4 <= |s| && DigitsIn(s, m.pos, m.pos + 4)
  {
    var m1 := CatInv(DD, DD, s, m, m');
    TwoTaken(s, m, m1);
    TwoTaken(s, m1, m');
  }

  lemma EightTaken(s: string, m': Match)
    requires m' in Run(Cat(Cat(DD, DD), Cat(DD, DD)), s, Match(0, 0, 0))
    ensures DigitsIn(s, 0, 8)
  {
    var m1 := CatInv(Cat(DD, DD), Cat(DD, DD), s, Match(0, 0, 0), m');
    FourTaken(s, Match(0, 0, 0), m1);
    FourTaken(s, m1, m');
  }

  lemma EightFails(s: string)
    requires !DigitsIn(s, 0, 8)
    ensures Run(Cat(Cat(DD, DD), Cat(DD, DD)), s, Match(0, 0, 0)) == []
  {
    var ms := Run(Cat(Cat(DD, DD), Cat(DD, DD)), s, Match(0, 0, 0));
    if ms != [] { EightTaken(s, ms[0]); }
  }

  lemma NoBarcode(s: string)
    requires !DigitsIn(s, 0, 8)
    ensures Find(BARCODE, s, 0) == NotFound
  {
    var eight := Cat(Cat(DD, DD), Cat(DD, DD));
    EightFails(s);
    CatFails(eight, Cat(Star(D), Star(S)), s, Match(0, 0, 0));
    BolFails(Cat(eight, Cat(Star(D), Star(S))), s);
  }

  /** A line that does not begin with eight digits keeps its start. */
  lemma ShortCodeKept(letters: Letters, line: string)
    requires !DigitsIn(line, 0, 8)
    ensures ProductName(Patterns(letters), line) == TrimSpace(line)
  {
    NoBarcode(line);
  }

  lemma Stripped(s: string, p: nat)
    requires 0 < p <= |s| && Find(BARCODE, s, 0) == Found(0, Match(p, 0, 0)) && Find(BARCODE, s, p) == NotFound
    ensures ReplaceAll(BARCODE, s, "", 0) == s[p..]
  {
    assert ReplaceAll(BARCODE, s, "", p) == s[p..];
    assert s[0..0] + "" + s[p..] == s[p..];
  }
}
