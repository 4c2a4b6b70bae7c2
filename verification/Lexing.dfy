/** What the money pattern matches, and what it therefore finds in a line. */
module Lexing {
  import opened Text
  import opened Regex
  import opened RegexTheorems
  import opened Extract

  predicate DigitsIn(s: string, lo: nat, hi: nat) {
    hi <= |s| && forall k :: lo <= k < hi ==> IsDigit(s[k])
  }

  // A dot at k with three digits after it, all before c.
  predicate DotAt(s: string, k: nat, c: nat) {
    k + 3 < c <= |s| && s[k] == '.' && DigitsIn(s, k + 1, k + 4)
  }

  // Digits, and dots with three digits after each.
  predicate Dotted(s: string, lo: nat, hi: nat) {
    hi <= |s| && forall k :: lo <= k < hi ==> IsDigit(s[k]) || DotAt(s, k, hi)
  }

  predicate CentsAt(s: string, c: nat, sep: char) {
    c + 3 <= |s| && s[c] == sep && DigitsIn(s, c + 1, c + 3)
  }

  // An amount from b whose cents start at c: with a comma there may be dots before it.
  predicate CommaAmount(s: string, b: nat, c: nat) {
    b < c && CentsAt(s, c, ',') && IsDigit(s[b]) && Dotted(s, b, c)
  }

  predicate PointAmount(s: string, b: nat, c: nat) {
    b < c && CentsAt(s, c, '.') && DigitsIn(s, b, c)
  }

  // What a match of each part of the pattern is.

  lemma DigitTakes(s: string, m: Match, m': Match)
    requires m.pos <= |s|
    ensures m' in Run(D, s, m) <==> m.pos < |s| && IsDigit(s[m.pos]) && m' == m.(pos := m.pos + 1)
  {
  }

  lemma LitTakes(c: char, s: string, m: Match, m': Match)
    requires m.pos <= |s| && (c == '.' || c == ',')
    ensures m' in Run(Chr(Lit(c)), s, m) <==> m.pos < |s| && s[m.pos] == c && m' == m.(pos := m.pos + 1)
  {
  }

  lemma TwoTaken(s: string, m: Match, m': Match)
    requires m.pos <= |s| && m' in Run(DD, s, m)
    ensures m' == m.(pos := m.pos + 2) && DigitsIn(s, m.pos, m.pos + 2)
  {
    var m1 := CatInv(D, D, s, m, m');
    DigitTakes(s, m, m1);
    DigitTakes(s, m1, m');
  }

  lemma CentsTaken(c: char, s: string, m: Match, m': Match)
    requires m.pos <= |s| && (c == '.' || c == ',') && m' in Run(Cat(Chr(Lit(c)), DD), s, m)
    ensures m' == m.(pos := m.pos + 3) && CentsAt(s, m.pos, c)
  {
    var m1 := CatInv(Chr(Lit(c)), DD, s, m, m');
    LitTakes(c, s, m, m1);
    TwoTaken(s, m1, m');
  }

  lemma TripleTaken(s: string, m: Match, m': Match)
    requires m.pos <= |s| && m' in Run(TRIPLE, s, m)
    ensures m' == m.(pos := m.pos + 4) && DotAt(s, m.pos, m.pos + 4)
  {
    var m1 := CatInv(Chr(Lit('.')), DDD, s, m, m');
    LitTakes('.', s, m, m1);
    var m2 := CatInv(D, DD, s, m1, m');
    DigitTakes(s, m1, m2);
    TwoTaken(s, m2, m');
  }

  lemma DottedJoin(s: string, lo: nat, mid: nat, hi: nat)
    requires lo <= mid <= hi && Dotted(s, lo, mid) && Dotted(s, mid, hi)
    ensures Dotted(s, lo, hi)
  {
    forall k | lo <= k < hi ensures IsDigit(s[k]) || DotAt(s, k, hi) {
      if k < mid { assert IsDigit(s[k]) || DotAt(s, k, mid); }
    }
  }

  lemma DottedTriple(s: string, lo: nat)
    requires DotAt(s, lo, lo + 4)
    ensures Dotted(s, lo, lo + 4)
  {
  }

  lemma {:induction false} TriplesTaken(s: string, m: Match, m': Match)
    requires m.pos <= |s| && m' in Run(Star(TRIPLE), s, m)
    ensures m.pos <= m'.pos && Dotted(s, m.pos, m'.pos)
    decreases |s| - m.pos
  {
    var m1 := StarInv(TRIPLE, s, m, m');
    if m' != m {
      TripleTaken(s, m, m1);
      DottedTriple(s, m.pos);
      TriplesTaken(s, m1, m');
      DottedJoin(s, m.pos, m1.pos, m'.pos);
    }
  }

  // A part that takes digits, and at least one.
  lemma DigitsTaken(r: Re, s: string, m: Match, m': Match)
    requires m.pos <= |s| && m' in Run(r, s, m) && OnlyHits(r, IsDigit) && MustHit(r, IsDigit)
    ensures m.pos < m'.pos <= |s| && DigitsIn(s, m.pos, m'.pos) && Dotted(s, m.pos, m'.pos)
  {
    OnlyHitsStays(r, s, m, m', IsDigit);
    MustHitHits(r, s, m, m', IsDigit);
    Bounded(r, s, m, m');
  }

  lemma Bounded(r: Re, s: string, m: Match, m': Match)
    requires m.pos <= |s| && m' in Run(r, s, m)
    ensures m.pos <= m'.pos <= |s|
  {
    var ms := Run(r, s, m);
    var k :| 0 <= k < |ms| && ms[k] == m';
  }

  lemma DigitParts()
    ensures OnlyHits(HEAD, IsDigit) && MustHit(HEAD, IsDigit)
    ensures OnlyHits(Plus(D), IsDigit) && MustHit(Plus(D), IsDigit)
  {
    assert OnlyHits(D, IsDigit) && MustHit(D, IsDigit);
    assert OnlyHits(Cat(D, Opt(D)), IsDigit);
  }

  lemma GroupedTaken(s: string, m: Match, m': Match) returns (c: nat)
    requires m.pos <= |s| && m' in Run(GROUPED, s, m)
    ensures m'.pos == c + 3 && CommaAmount(s, m.pos, c)
  {
    DigitParts();
    var m1 := CatInv(HEAD, Cat(Star(TRIPLE), COMMA_CENTS), s, m, m');
    DigitsTaken(HEAD, s, m, m1);
    var m2 := CatInv(Star(TRIPLE), COMMA_CENTS, s, m1, m');
    TriplesTaken(s, m1, m2);
    DottedJoin(s, m.pos, m1.pos, m2.pos);
    CentsTaken(',', s, m2, m');
    c := m2.pos;
  }

  lemma CommaTaken(s: string, m: Match, m': Match) returns (c: nat)
    requires m.pos <= |s| && m' in Run(COMMA, s, m)
    ensures m'.pos == c + 3 && CommaAmount(s, m.pos, c)
  {
    DigitParts();
    var m1 := CatInv(Plus(D), COMMA_CENTS, s, m, m');
    DigitsTaken(Plus(D), s, m, m1);
    CentsTaken(',', s, m1, m');
    c := m1.pos;
  }

  lemma PointTaken(s: string, m: Match, m': Match) returns (c: nat)
    requires m.pos <= |s| && m' in Run(POINT, s, m)
    ensures m'.pos == c + 3 && PointAmount(s, m.pos, c)
  {
    DigitParts();
    var m1 := CatInv(Plus(D), POINT_CENTS, s, m, m');
    DigitsTaken(Plus(D), s, m, m1);
    CentsTaken('.', s, m1, m');
    c := m1.pos;
  }

  // What each part can match.

  lemma DigitRuns(s: string, m: Match)
    requires m.pos < |s| && IsDigit(s[m.pos])
    ensures m.(pos := m.pos + 1) in Run(D, s, m)
  {
    DigitTakes(s, m, m.(pos := m.pos + 1));
  }

  lemma TwoRuns(s: string, m: Match)
    requires DigitsIn(s, m.pos, m.pos + 2)
    ensures m.(pos := m.pos + 2) in Run(DD, s, m)
  {
    var m1 := m.(pos := m.pos + 1);
    DigitRuns(s, m);
    DigitRuns(s, m1);
    CatIntro(D, D, s, m, m1, m1.(pos := m.pos + 2));
  }

  lemma CentsRun(c: char, s: string, m: Match)
    requires (c == '.' || c == ',') && CentsAt(s, m.pos, c)
    ensures m.(pos := m.pos + 3) in Run(Cat(Chr(Lit(c)), DD), s, m)
  {
    var m1 := m.(pos := m.pos + 1);
    LitTakes(c, s, m, m1);
    TwoRuns(s, m1);
    CatIntro(Chr(Lit(c)), DD, s, m, m1, m.(pos := m.pos + 3));
  }

  lemma TripleRuns(s: string, m: Match)
    requires DotAt(s, m.pos, m.pos + 4)
    ensures m.(pos := m.pos + 4) in Run(TRIPLE, s, m)
  {
    var m1, m2 := m.(pos := m.pos + 1), m.(pos := m.pos + 2);
    LitTakes('.', s, m, m1);
    DigitRuns(s, m1);
    TwoRuns(s, m2);
    CatIntro(D, DD, s, m1, m2, m.(pos := m.pos + 4));
    CatIntro(Chr(Lit('.')), DDD, s, m, m1, m.(pos := m.pos + 4));
  }

  lemma OptIntro(a: Re, s: string, m: Match, m': Match)
    requires m.pos <= |s| && (m' in Run(a, s, m) || m' == m)
    ensures m' in Run(Opt(a), s, m)
  {
  }

  lemma HeadRuns(s: string, m: Match, n: nat)
    requires 1 <= n <= 3 && DigitsIn(s, m.pos, m.pos + n)
    ensures m.(pos := m.pos + n) in Run(HEAD, s, m)
  {
    var m1, m2, m' := m.(pos := m.pos + 1), m.(pos := m.pos + 2), m.(pos := m.pos + n);
    DigitRuns(s, m);
    if n > 1 {
      DigitRuns(s, m1);
      if n == 3 { DigitRuns(s, m2); }
      OptIntro(D, s, m2, m');
      CatIntro(D, Opt(D), s, m1, m2, m');
    }
    OptIntro(Cat(D, Opt(D)), s, m1, m');
    CatIntro(D, Opt(Cat(D, Opt(D))), s, m, m1, m');
  }

  lemma {:induction false} DigitsRun(s: string, m: Match, e: nat)
    requires m.pos <= e && DigitsIn(s, m.pos, e)
    ensures m.(pos := e) in Run(Star(D), s, m)
    decreases e - m.pos
  {
    if m.pos == e {
      RunStar(D, s, m);
    } else {
      DigitRuns(s, m);
      DigitsRun(s, m.(pos := m.pos + 1), e);
      StarIntro(D, s, m, m.(pos := m.pos + 1), m.(pos := e));
    }
  }

  lemma PlusRuns(s: string, m: Match, e: nat)
    requires m.pos < e && DigitsIn(s, m.pos, e)
    ensures m.(pos := e) in Run(Plus(D), s, m)
  {
    DigitRuns(s, m);
    DigitsRun(s, m.(pos := m.pos + 1), e);
    CatIntro(D, Star(D), s, m, m.(pos := m.pos + 1), m.(pos := e));
  }

  // Groups of a dot and three digits, one after the other, from lo to hi.
  predicate Triples(s: string, lo: nat, hi: nat)
    decreases hi - lo
  {
    lo == hi || (lo + 4 <= hi && DotAt(s, lo, lo + 4) && Triples(s, lo + 4, hi))
  }

  lemma {:induction false} TriplesRun(s: string, m: Match, e: nat)
    requires m.pos <= e <= |s| && Triples(s, m.pos, e)
    ensures m.(pos := e) in Run(Star(TRIPLE), s, m)
    decreases e - m.pos
  {
    if m.pos == e {
      RunStar(TRIPLE, s, m);
    } else {
      TripleRuns(s, m);
      TriplesRun(s, m.(pos := m.pos + 4), e);
      StarIntro(TRIPLE, s, m, m.(pos := m.pos + 4), m.(pos := e));
    }
  }

  lemma GroupedRuns(s: string, m: Match, h: nat, c: nat)
    requires m.pos < h <= m.pos + 3 && h <= c && DigitsIn(s, m.pos, h) && Triples(s, h, c) && CentsAt(s, c, ',')
    ensures m.(pos := c + 3) in Run(GROUPED, s, m)
  {
    var m1, m2, m' := m.(pos := h), m.(pos := c), m.(pos := c + 3);
    HeadRuns(s, m, h - m.pos);
    TriplesRun(s, m1, c);
    CentsRun(',', s, m2);
    CatIntro(Star(TRIPLE), COMMA_CENTS, s, m1, m2, m');
    CatIntro(HEAD, Cat(Star(TRIPLE), COMMA_CENTS), s, m, m1, m');
  }

  lemma CommaRuns(s: string, m: Match, c: nat)
    requires m.pos < c && DigitsIn(s, m.pos, c) && CentsAt(s, c, ',')
    ensures m.(pos := c + 3) in Run(COMMA, s, m)
  {
    PlusRuns(s, m, c);
    CentsRun(',', s, m.(pos := c));
    CatIntro(Plus(D), COMMA_CENTS, s, m, m.(pos := c), m.(pos := c + 3));
  }

  lemma PointRuns(s: string, m: Match, c: nat)
    requires PointAmount(s, m.pos, c)
    ensures m.(pos := c + 3) in Run(POINT, s, m)
  {
    PlusRuns(s, m, c);
    CentsRun('.', s, m.(pos := c));
    CatIntro(Plus(D), POINT_CENTS, s, m, m.(pos := c), m.(pos := c + 3));
  }

  // An amount that starts at b ends in one place only.

  lemma OneComma(s: string, b: nat, c: nat, d: nat)
    requires CommaAmount(s, b, c) && CommaAmount(s, b, d)
    ensures c == d
  {
  }

  lemma OnePoint(s: string, b: nat, c: nat, d: nat)
    requires PointAmount(s, b, c) && PointAmount(s, b, d)
    ensures c == d
  {
  }

  predicate EndsAt(s: string, e: nat) {
    e <= |s| && (e == |s| || !IsDigit(s[e]))
  }

  lemma PointIsNoComma(s: string, b: nat, c: nat, d: nat)
    requires PointAmount(s, b, c) && EndsAt(s, c + 3)
    ensures !CommaAmount(s, b, d)
  {
  }

  // What the whole amount pattern prefers.

  lemma RunAmount(s: string, m: Match)
    requires m.pos <= |s|
    ensures Run(AMOUNT, s, m) == Run(GROUPED, s, m) + (Run(COMMA, s, m) + Run(POINT, s, m))
  {
  }

  lemma PrefersComma(s: string, m: Match, c: nat)
    requires CommaAmount(s, m.pos, c)
    requires Run(GROUPED, s, m) != [] || Run(COMMA, s, m) != []
    ensures Run(AMOUNT, s, m) != [] && Run(AMOUNT, s, m)[0].pos == c + 3
  {
    RunAmount(s, m);
    var m' := Run(AMOUNT, s, m)[0];
    var d: nat;
    if Run(GROUPED, s, m) != [] {
      assert m' == Run(GROUPED, s, m)[0];
      d := GroupedTaken(s, m, m');
    } else {
      assert m' == Run(COMMA, s, m)[0];
      d := CommaTaken(s, m, m');
    }
    OneComma(s, m.pos, c, d);
  }

  lemma PrefersPoint(s: string, m: Match, c: nat)
    requires PointAmount(s, m.pos, c) && EndsAt(s, c + 3)
    ensures Run(AMOUNT, s, m) != [] && Run(AMOUNT, s, m)[0].pos == c + 3
  {
    RunAmount(s, m);
    PointRuns(s, m, c);
    if Run(GROUPED, s, m) != [] {
      var d := GroupedTaken(s, m, Run(GROUPED, s, m)[0]);
      PointIsNoComma(s, m.pos, c, d);
    } else if Run(COMMA, s, m) != [] {
      var d := CommaTaken(s, m, Run(COMMA, s, m)[0]);
      PointIsNoComma(s, m.pos, c, d);
    } else {
      var m' := Run(AMOUNT, s, m)[0];
      assert m' == Run(POINT, s, m)[0];
      var d := PointTaken(s, m, m');
      OnePoint(s, m.pos, c, d);
    }
  }

  /** Every amount contains a digit. */
  lemma MoneyHasDigit()
    ensures MustHit(BR_MONEY, IsDigit)
  {
    assert MustHit(D, IsDigit);
    assert MustHit(DD, IsDigit);
    assert MustHit(GROUPED, IsDigit) && MustHit(COMMA, IsDigit) && MustHit(POINT, IsDigit);
    assert MustHit(AMOUNT, IsDigit);
  }
}
