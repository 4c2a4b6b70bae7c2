/** Which match the matcher prefers, for the parts that quantities, barcodes and totals are made of; and numbers
    as they are written and read. */
module Preference {
  import opened Text
  import opened Regex
  import opened RegexTheorems
  import opened Extract
  import opened Money

  // The preferred match.
  predicate First(r: Re, s: string, m: Match, m': Match) {
    m.pos <= |s| && Run(r, s, m) != [] && Run(r, s, m)[0] == m'
  }

  lemma CatFirst(a: Re, b: Re, s: string, m: Match, m1: Match, m': Match)
    requires First(a, s, m, m1) && First(b, s, m1, m')
    ensures First(Cat(a, b), s, m, m')
  {
    RunCat(a, b, s, m);
  }

  lemma OptFirst(a: Re, s: string, m: Match)
    requires m.pos <= |s| && Run(a, s, m) == []
    ensures First(Opt(a), s, m, m)
  {
  }

  lemma ChrFirst(cls: Class, s: string, m: Match)
    requires m.pos < |s| && InClass(cls, s[m.pos])
    ensures First(Chr(cls), s, m, m.(pos := m.pos + 1))
  {
  }

  lemma ChrFails(cls: Class, s: string, m: Match)
    requires m.pos <= |s| && (m.pos == |s| || !InClass(cls, s[m.pos]))
    ensures Run(Chr(cls), s, m) == []
  {
  }

  // All characters up to e are in the class and the one at e, if any, is not.
  predicate Stretch(cls: Class, s: string, lo: nat, e: nat) {
    lo <= e <= |s| && (forall k :: lo <= k < e ==> InClass(cls, s[k])) && (e == |s| || !InClass(cls, s[e]))
  }

  // A star takes all it can.
  lemma {:induction false} StarFirst(cls: Class, s: string, m: Match, e: nat)
    requires Stretch(cls, s, m.pos, e)
    ensures First(Star(Chr(cls)), s, m, m.(pos := e))
    decreases e - m.pos
  {
    RunStar(Chr(cls), s, m);
    if m.pos < e {
      var m1 := m.(pos := m.pos + 1);
      StarFirst(cls, s, m1, e);
      assert Run(Chr(cls), s, m) == [m1];
      assert [m1][1..] == [];
    } else {
      ChrFails(cls, s, m);
    }
  }

  lemma PlusFirst(cls: Class, s: string, m: Match, e: nat)
    requires m.pos < e && Stretch(cls, s, m.pos, e)
    ensures First(Plus(Chr(cls)), s, m, m.(pos := e))
  {
    ChrFirst(cls, s, m);
    StarFirst(cls, s, m.(pos := m.pos + 1), e);
    CatFirst(Chr(cls), Star(Chr(cls)), s, m, m.(pos := m.pos + 1), m.(pos := e));
  }

  lemma CatFails(a: Re, b: Re, s: string, m: Match)
    requires m.pos <= |s| && Run(a, s, m) == []
    ensures Run(Cat(a, b), s, m) == []
  {
    RunCat(a, b, s, m);
  }

  lemma AltFirst(a: Re, b: Re, s: string, m: Match, m': Match)
    requires First(a, s, m, m') || (m.pos <= |s| && Run(a, s, m) == [] && First(b, s, m, m'))
    ensures First(Alt(a, b), s, m, m')
  {
  }

  lemma OptTakes(a: Re, s: string, m: Match, m': Match)
    requires First(a, s, m, m')
    ensures First(Opt(a), s, m, m')
  {
  }

  lemma GroupFirst(a: Re, s: string, m: Match, m': Match)
    requires First(a, s, m, m')
    ensures First(Group(a), s, m, Match(m'.pos, m.pos, m'.pos))
  {
  }

  lemma GroupFails(a: Re, s: string, m: Match)
    requires m.pos <= |s| && Run(a, s, m) == []
    ensures Run(Group(a), s, m) == []
  {
  }

  // Words, in capitals or not.

  predicate SpelledAt(w: string, s: string, i: nat) {
    i + |w| <= |s| && forall k :: 0 <= k < |w| ==> Fold(s[i + k]) == Fold(w[k])
  }

  lemma SpelledRest(w: string, s: string, i: nat)
    requires w != "" && i < |s| && Fold(s[i]) == Fold(w[0])
    ensures SpelledAt(w, s, i) <==> SpelledAt(w[1..], s, i + 1)
  {
    if SpelledAt(w, s, i) {
      forall k | 0 <= k < |w[1..]|
        ensures Fold(s[i + 1 + k]) == Fold(w[1..][k])
      {
        assert Fold(s[i + (k + 1)]) == Fold(w[k + 1]);
      }
    }
    if SpelledAt(w[1..], s, i + 1) {
      forall k | 0 <= k < |w| ensures Fold(s[i + k]) == Fold(w[k]) {
        if k > 0 { assert Fold(s[i + 1 + (k - 1)]) == Fold(w[1..][k - 1]); }
      }
    }
  }

  lemma OtherLetter(w: string, s: string, i: nat)
    requires w != "" && (i < |s| ==> Fold(s[i]) != Fold(w[0]))
    ensures !SpelledAt(w, s, i)
  {
  }

  lemma ChrRun(c: char, s: string, m: Match)
    requires m.pos <= |s|
    ensures Run(Chr(Lit(c)), s, m) == if m.pos < |s| && Fold(s[m.pos]) == Fold(c) then [m.(pos := m.pos + 1)] else []
  {
  }

  lemma OneEach(r: Re, s: string, lo: nat, m: Match)
    requires lo <= m.pos <= |s|
    ensures Each(r, s, lo, [m]) == Run(r, s, m)
  {
    assert [m][1..] == [];
    assert Run(r, s, m) + [] == Run(r, s, m);
  }

  lemma LetterThen(c: char, r: Re, s: string, m: Match)
    requires m.pos <= |s|
    ensures Run(Cat(Chr(Lit(c)), r), s, m) ==
            if m.pos < |s| && Fold(s[m.pos]) == Fold(c) then Run(r, s, m.(pos := m.pos + 1)) else []
  {
    ChrRun(c, s, m);
    if m.pos < |s| && Fold(s[m.pos]) == Fold(c) {
      RunCat(Chr(Lit(c)), r, s, m);
      OneEach(r, s, m.pos, m.(pos := m.pos + 1));
    } else {
      CatFails(Chr(Lit(c)), r, s, m);
    }
  }

  /** A word matches where it is spelled, and nowhere else. */
  lemma {:induction false} WordRun(w: string, s: string, m: Match)
    requires w != "" && m.pos <= |s|
    ensures Run(Word(w), s, m) == if SpelledAt(w, s, m.pos) then [m.(pos := m.pos + |w|)] else []
    decreases |w|
  {
    if m.pos < |s| && Fold(s[m.pos]) == Fold(w[0]) { SpelledRest(w, s, m.pos); } else { OtherLetter(w, s, m.pos); }
    if |w| == 1 {
      ChrRun(w[0], s, m);
    } else {
      LetterThen(w[0], Word(w[1..]), s, m);
      if m.pos < |s| { WordRun(w[1..], s, m.(pos := m.pos + 1)); }
    }
  }

  // Numerals.

  // Digits, and possibly a comma or a point and more digits.
  datatype Numeral = Numeral(whole: string, comma: bool, frac: string)

  predicate Written(n: Numeral) {
    AllDigits(n.whole) && n.whole != "" && AllDigits(n.frac)
  }

  function PointOf(n: Numeral): string {
    if n.comma then "," else "."
  }

  function TextOf(n: Numeral): string {
    if n.frac == "" then n.whole else n.whole + PointOf(n) + n.frac
  }

  function ValueOf(n: Numeral): real
    requires Written(n)
  {
    Number(n.whole + n.frac, |n.frac|)
  }

  lemma DigitsAreNone(d: string, c: char)
    requires AllDigits(d) && !IsDigit(c)
    ensures c !in d
  {
  }

  lemma {:induction false} NoPoint(d: string)
    requires AllDigits(d)
    ensures Index(d, ".") == -1
  {
    if d != "" {
      assert d[..1] == [d[0]];
      NoPoint(d[1..]);
    }
  }

  lemma PointParses(whole: string, frac: string)
    requires AllDigits(whole) && whole != "" && AllDigits(frac)
    ensures ParseFloat(whole + "." + frac) == InRange(Number(whole + frac, |frac|))
  {
    var s := whole + "." + frac;
    DigitsAreNone(whole, '.');
    IndexOfPoint(whole, frac);
    assert s[..|whole|] == whole && s[|whole|..][1..] == frac;
    assert ParseFloat(s) == ParseParts(whole, frac);
  }

  lemma WholeParses(whole: string)
    requires AllDigits(whole) && whole != ""
    ensures ParseFloat(whole) == InRange(Number(whole, 0))
  {
    NoPoint(whole);
    assert whole + "" == whole;
    assert ParseFloat(whole) == ParseParts(whole, "");
  }

  lemma CommaGone(whole: string, frac: string)
    requires AllDigits(whole) && AllDigits(frac)
    ensures Replace(Without(whole + "," + frac, '.'), ',', '.') == whole + "." + frac
  {
    DigitsAreNone(whole, '.');
    DigitsAreNone(frac, '.');
    DigitsAreNone(whole, ',');
    DigitsAreNone(frac, ',');
    WithoutNone(whole + "," + frac, '.');
    CommaToPoint(whole, frac);
  }

  lemma TextTrimmed(n: Numeral)
    requires Written(n)
    ensures TrimSpace(TextOf(n)) == TextOf(n) && TextOf(n) != "" && IsDigit(TextOf(n)[0])
    ensures ',' in TextOf(n) <==> n.comma && n.frac != ""
  {
    var t := TextOf(n);
    TrimSpaceIs(t);
    DigitsAreNone(n.whole, ',');
    DigitsAreNone(n.frac, ',');
    assert t[0] == n.whole[0];
    assert IsDigit(t[|t| - 1]);
    if n.frac != "" { assert t[|n.whole|] == PointOf(n)[0]; }
  }

  /** A numeral is read as its value. */
  lemma NumeralParses(n: Numeral)
    requires Written(n)
    ensures ParseMoney(TextOf(n)) == InRange(ValueOf(n))
  {
    TextTrimmed(n);
    if n.frac == "" {
      assert n.whole + n.frac == n.whole;
      WholeParses(n.whole);
    } else {
      PointParses(n.whole, n.frac);
      if n.comma { CommaGone(n.whole, n.frac); }
    }
  }

  predicate IsPoint(c: char) {
    c == '.' || c == ','
  }

  // The numeral from lo to e, whole up to p, is all that can be read there.
  predicate NumeralAt(s: string, lo: nat, p: nat, e: nat) {
    && lo < p <= e <= |s| && Stretch(Digit, s, lo, p)
    && if p == e then !(e + 1 < |s| && IsPoint(s[e]) && IsDigit(s[e + 1]))
       else p + 1 < e && IsPoint(s[p]) && Stretch(Digit, s, p + 1, e)
  }

  lemma PointsAre(c: char)
    ensures InClass(OneOf(".,"), c) <==> IsPoint(c)
  {
    assert ".,"[0] == '.' && ".,"[1] == ',';
  }

  const FRACTION := Cat(Chr(OneOf(".,")), Plus(D))

  lemma PlusFails(s: string, m: Match)
    requires m.pos <= |s| && (m.pos == |s| || !IsDigit(s[m.pos]))
    ensures Run(Plus(D), s, m) == []
  {
    ChrFails(Digit, s, m);
    CatFails(D, Star(D), s, m);
  }

  lemma FractionFails(s: string, m: Match)
    requires m.pos <= |s| && !(m.pos + 1 < |s| && IsPoint(s[m.pos]) && IsDigit(s[m.pos + 1]))
    ensures Run(FRACTION, s, m) == []
  {
    if m.pos < |s| && IsPoint(s[m.pos]) {
      var m1 := m.(pos := m.pos + 1);
      PointsAre(s[m.pos]);
      PlusFails(s, m1);
      RunCat(Chr(OneOf(".,")), Plus(D), s, m);
      assert Run(Chr(OneOf(".,")), s, m) == [m1];
      OneEach(Plus(D), s, m.pos, m1);
    } else {
      if m.pos < |s| { PointsAre(s[m.pos]); }
      ChrFails(OneOf(".,"), s, m);
      CatFails(Chr(OneOf(".,")), Plus(D), s, m);
    }
  }

  lemma FractionFirst(s: string, m: Match, e: nat)
    requires m.pos + 1 < e <= |s| && IsPoint(s[m.pos]) && Stretch(Digit, s, m.pos + 1, e)
    ensures First(FRACTION, s, m, m.(pos := e))
  {
    var m1 := m.(pos := m.pos + 1);
    PointsAre(s[m.pos]);
    ChrFirst(OneOf(".,"), s, m);
    PlusFirst(Digit, s, m1, e);
    CatFirst(Chr(OneOf(".,")), Plus(D), s, m, m1, m.(pos := e));
  }

  lemma NumberFirst(s: string, m: Match, p: nat, e: nat)
    requires NumeralAt(s, m.pos, p, e)
    ensures First(Group(NUMBER), s, m, Match(e, m.pos, e))
  {
    var m1 := m.(pos := p);
    PlusFirst(Digit, s, m, p);
    if p == e {
      FractionFails(s, m1);
      OptFirst(FRACTION, s, m1);
    } else {
      FractionFirst(s, m1, e);
      OptTakes(FRACTION, s, m1, m.(pos := e));
    }
    CatFirst(Plus(D), Opt(FRACTION), s, m, m1, m.(pos := e));
    GroupFirst(NUMBER, s, m, m.(pos := e));
  }

  // What may follow a numeral without being read as more of it.
  predicate EndsNumeral(n: Numeral, rest: string) {
    rest != "" ==> !IsDigit(rest[0]) && (n.frac == "" && IsPoint(rest[0]) ==> |rest| == 1 || !IsDigit(rest[1]))
  }

  // A numeral cut out of a text.
  lemma NumeralCut(n: Numeral, s: string, lo: nat, e: nat)
    requires Written(n) && lo <= e <= |s| && s[lo..e] == TextOf(n) && EndsNumeral(n, s[e..])
    ensures NumeralAt(s, lo, lo + |n.whole|, e)
  {
    var t, p := TextOf(n), lo + |n.whole|;
    assert forall k :: lo <= k < e ==> s[k] == t[k - lo];
    assert forall k :: e <= k < |s| ==> s[k] == s[e..][k - e];
    forall k | lo <= k < p ensures IsDigit(s[k]) { assert t[k - lo] == n.whole[k - lo]; }
    if n.frac != "" {
      assert s[p] == t[|n.whole|] == PointOf(n)[0];
      forall k | p + 1 <= k < e ensures IsDigit(s[k]) { assert t[k - lo] == n.frac[k - p - 1]; }
    }
  }

  lemma NumeralLies(n: Numeral, front: string, rest: string)
    requires Written(n) && EndsNumeral(n, rest)
    ensures var s, lo := front + TextOf(n) + rest, |front|;
      NumeralAt(s, lo, lo + |n.whole|, lo + |TextOf(n)|) && s[lo..lo + |TextOf(n)|] == TextOf(n)
  {
    var s, lo, e := front + TextOf(n) + rest, |front|, |front| + |TextOf(n)|;
    assert s[lo..e] == TextOf(n) && s[e..] == rest;
    NumeralCut(n, s, lo, e);
  }

  // Patterns that begin with ^ are found at the start or not at all.

  lemma BolFirst(r: Re, s: string, m': Match)
    requires First(r, s, Match(0, 0, 0), m')
    ensures Find(Cat(Bol, r), s, 0) == Found(0, m')
  {
    CatFirst(Bol, r, s, Match(0, 0, 0), Match(0, 0, 0), m');
  }

  lemma {:induction false} BolOnly(r: Re, s: string, i: nat)
    requires 0 < i <= |s|
    ensures Find(Cat(Bol, r), s, i) == NotFound
    decreases |s| - i
  {
    CatFails(Bol, r, s, Match(i, i, i));
    if i < |s| { BolOnly(r, s, i + 1); }
  }

  lemma BolFails(r: Re, s: string)
    requires Run(r, s, Match(0, 0, 0)) == []
    ensures Find(Cat(Bol, r), s, 0) == NotFound
  {
    var m := Match(0, 0, 0);
    RunCat(Bol, r, s, m);
    assert Run(Bol, s, m) == [m] && [m][1..] == [];
    if |s| > 0 { BolOnly(r, s, 1); }
  }
}
