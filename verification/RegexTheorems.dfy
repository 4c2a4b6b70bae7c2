/** Two readings of a pattern that need no matching: a character class every match passes through, and a
    class no match leaves. */
module RegexTheorems {
  import opened Regex

  lemma {:induction false} EachInv(r: Re, s: string, lo: nat, ms: seq<Match>, m': Match) returns (m: Match)
    requires lo <= |s| && Within(s, lo, ms) && m' in Each(r, s, lo, ms)
    ensures m in ms && lo <= m.pos <= |s| && m' in Run(r, s, m)
    decreases |ms|
  {
    if m' in Run(r, s, ms[0]) {
      m := ms[0];
    } else {
      m := EachInv(r, s, lo, ms[1..], m');
    }
  }

  lemma {:induction false} EachIntro(r: Re, s: string, lo: nat, ms: seq<Match>, m: Match, m': Match)
    requires lo <= |s| && Within(s, lo, ms) && m in ms && lo <= m.pos <= |s| && m' in Run(r, s, m)
    ensures m' in Each(r, s, lo, ms)
    decreases |ms|
  {
    if m != ms[0] { EachIntro(r, s, lo, ms[1..], m, m'); }
  }

  lemma {:induction false} AgainInv(a: Re, s: string, lo: nat, ms: seq<Match>, m': Match) returns (m: Match)
    requires lo <= |s| && Within(s, lo, ms) && m' in Again(a, s, lo, ms)
    ensures m in ms && lo < m.pos <= |s| && m' in Run(Star(a), s, m)
    decreases |ms|
  {
    if ms[0].pos > lo && m' in Run(Star(a), s, ms[0]) {
      m := ms[0];
    } else {
      m := AgainInv(a, s, lo, ms[1..], m');
    }
  }

  lemma {:induction false} AgainIntro(a: Re, s: string, lo: nat, ms: seq<Match>, m: Match, m': Match)
    requires lo <= |s| && Within(s, lo, ms) && m in ms && lo < m.pos <= |s| && m' in Run(Star(a), s, m)
    ensures m' in Again(a, s, lo, ms)
    decreases |ms|
  {
    if m != ms[0] { AgainIntro(a, s, lo, ms[1..], m, m'); }
  }

  ghost predicate Inside(cls: Class, p: char -> bool) {
    forall c :: InClass(cls, c) ==> p(c)
  }

  // Every match takes a character of p.
  ghost predicate MustHit(r: Re, p: char -> bool) {
    match r
    case Chr(cls) => Inside(cls, p)
    case Cat(a, b) => MustHit(a, p) || MustHit(b, p)
    case Alt(a, b) => MustHit(a, p) && MustHit(b, p)
    case Group(a) => MustHit(a, p)
    case _ => false
  }

  // A match takes only characters of p.
  ghost predicate OnlyHits(r: Re, p: char -> bool) {
    match r
    case Chr(cls) => Inside(cls, p)
    case Cat(a, b) => OnlyHits(a, p) && OnlyHits(b, p)
    case Alt(a, b) => OnlyHits(a, p) && OnlyHits(b, p)
    case Opt(a) => OnlyHits(a, p)
    case Star(a) => OnlyHits(a, p)
    case Group(a) => OnlyHits(a, p)
    case _ => true
  }

  ghost predicate HitIn(s: string, lo: nat, hi: nat, p: char -> bool) {
    exists k :: lo <= k < hi && k < |s| && p(s[k])
  }

  ghost predicate OnlyIn(s: string, lo: nat, hi: nat, p: char -> bool) {
    forall k :: lo <= k < hi && k < |s| ==> p(s[k])
  }

  lemma CaptureInv(from: nat, s: string, ms: seq<Match>, m': Match) returns (m: Match)
    requires Within(s, from, ms) && m' in Capture(from, s, ms)
    ensures m in ms && m' == Match(m.pos, from, m.pos)
  {
    var k :| 0 <= k < |ms| && Capture(from, s, ms)[k] == m';
    m := ms[k];
  }

  /** A pattern that must hit p matches only where there is a character of p. */
  lemma {:induction false} MustHitHits(r: Re, s: string, m: Match, m': Match, p: char -> bool)
    requires MustHit(r, p) && m.pos <= |s| && m' in Run(r, s, m)
    ensures HitIn(s, m.pos, m'.pos, p)
    decreases r
  {
    match r
    case Chr(_) => assert p(s[m.pos]);
    case Cat(a, b) =>
      var m1 := EachInv(b, s, m.pos, Run(a, s, m), m');
      assert m1.pos <= m'.pos;
      if MustHit(a, p) {
        MustHitHits(a, s, m, m1, p);
        var k :| m.pos <= k < m1.pos && k < |s| && p(s[k]);
        assert m.pos <= k < m'.pos;
      } else {
        MustHitHits(b, s, m1, m', p);
        var k :| m1.pos <= k < m'.pos && k < |s| && p(s[k]);
        assert m.pos <= k < m'.pos;
      }
    case Alt(a, b) => MustHitHits(if m' in Run(a, s, m) then a else b, s, m, m', p);
    case Group(a) =>
      var m1 := CaptureInv(m.pos, s, Run(a, s, m), m');
      MustHitHits(a, s, m, m1, p);
  }

  /** A pattern that only hits p takes only characters of p. */
  lemma {:induction false} OnlyHitsStays(r: Re, s: string, m: Match, m': Match, p: char -> bool)
    requires OnlyHits(r, p) && m.pos <= |s| && m' in Run(r, s, m)
    ensures OnlyIn(s, m.pos, m'.pos, p)
    decreases r, |s| - m.pos
  {
    match r
    case Chr(_) =>
    case Cat(a, b) =>
      var m1 := EachInv(b, s, m.pos, Run(a, s, m), m');
      OnlyHitsStays(a, s, m, m1, p);
      OnlyHitsStays(b, s, m1, m', p);
    case Alt(a, b) => OnlyHitsStays(if m' in Run(a, s, m) then a else b, s, m, m', p);
    case Opt(a) => if m' in Run(a, s, m) { OnlyHitsStays(a, s, m, m', p); }
    case Star(a) =>
      if m' in Again(a, s, m.pos, Run(a, s, m)) {
        var m1 := AgainInv(a, s, m.pos, Run(a, s, m), m');
        OnlyHitsStays(a, s, m, m1, p);
        OnlyHitsStays(r, s, m1, m', p);
      }
    case Group(a) =>
      var m1 := CaptureInv(m.pos, s, Run(a, s, m), m');
      OnlyHitsStays(a, s, m, m1, p);
    case _ =>
  }

  lemma {:induction false} FindIs(r: Re, s: string, i: nat)
    requires i <= |s|
    ensures var f := Find(r, s, i);
      f.Found? ==> var m := Match(f.start, f.start, f.start); Run(r, s, m) != [] && f.m == Run(r, s, m)[0]
    decreases |s| - i
  {
    if Run(r, s, Match(i, i, i)) == [] && i < |s| { FindIs(r, s, i + 1); }
  }

  /** Such a pattern is not found in a text without a character of p. */
  lemma NotFoundWithout(r: Re, s: string, i: nat, p: char -> bool)
    requires MustHit(r, p) && i <= |s| && forall k :: i <= k < |s| ==> !p(s[k])
    ensures Find(r, s, i) == NotFound
  {
    FindIs(r, s, i);
    var f := Find(r, s, i);
    if f.Found? {
      MustHitHits(r, s, Match(f.start, f.start, f.start), f.m, p);
    }
  }

  // Taking a match apart and putting one together.

  lemma CatInv(a: Re, b: Re, s: string, m: Match, m': Match) returns (m1: Match)
    requires m.pos <= |s| && m' in Run(Cat(a, b), s, m)
    ensures m1 in Run(a, s, m) && m.pos <= m1.pos <= m'.pos <= |s| && m' in Run(b, s, m1)
  {
    m1 := EachInv(b, s, m.pos, Run(a, s, m), m');
  }

  lemma RunCat(a: Re, b: Re, s: string, m: Match)
    requires m.pos <= |s|
    ensures Within(s, m.pos, Run(a, s, m)) && Run(Cat(a, b), s, m) == Each(b, s, m.pos, Run(a, s, m))
  {
    var firsts, all := Run(a, s, m), Run(Cat(a, b), s, m);
    assert all == Each(b, s, m.pos, firsts);
  }

  lemma RunStar(a: Re, s: string, m: Match)
    requires m.pos <= |s|
    ensures Within(s, m.pos, Run(a, s, m)) && Run(Star(a), s, m) == Again(a, s, m.pos, Run(a, s, m)) + [m]
  {
    var r := Star(a);
    match r
    case Star(b) =>
      assert b == a;
      var rounds := Again(b, s, m.pos, Run(b, s, m));
      assert Run(r, s, m) == rounds + [m];
  }

  lemma CatIntro(a: Re, b: Re, s: string, m: Match, m1: Match, m': Match)
    requires m.pos <= |s| && m1 in Run(a, s, m) && m1.pos <= |s| && m' in Run(b, s, m1)
    ensures m' in Run(Cat(a, b), s, m)
  {
    RunCat(a, b, s, m);
    EachIntro(b, s, m.pos, Run(a, s, m), m1, m');
  }

  lemma StarIntro(a: Re, s: string, m: Match, m1: Match, m': Match)
    requires m.pos <= |s| && m1 in Run(a, s, m) && m.pos < m1.pos <= |s| && m' in Run(Star(a), s, m1)
    ensures m' in Run(Star(a), s, m)
  {
    RunStar(a, s, m);
    AgainIntro(a, s, m.pos, Run(a, s, m), m1, m');
  }

  // A match of a Star is no move at all, or one round and a match of the Star after it.
  lemma StarInv(a: Re, s: string, m: Match, m': Match) returns (m1: Match)
    requires m.pos <= |s| && m' in Run(Star(a), s, m)
    ensures m' != m ==> m1 in Run(a, s, m) && m.pos < m1.pos <= |s| && m' in Run(Star(a), s, m1)
  {
    RunStar(a, s, m);
    m1 := m;
    if m' != m { m1 := AgainInv(a, s, m.pos, Run(a, s, m), m'); }
  }

  // The first match of a Cat is the first match of its second part after some match of its first.
  lemma {:induction false} EachFirst(r: Re, s: string, lo: nat, ms: seq<Match>) returns (m: Match)
    requires lo <= |s| && Within(s, lo, ms) && Each(r, s, lo, ms) != []
    ensures m in ms && lo <= m.pos <= |s| && Run(r, s, m) != [] && Each(r, s, lo, ms)[0] == Run(r, s, m)[0]
    decreases |ms|
  {
    if Run(r, s, ms[0]) != [] {
      m := ms[0];
    } else {
      m := EachFirst(r, s, lo, ms[1..]);
    }
  }

  /** Find gives the first position where the pattern matches at all. */
  lemma {:induction false} FindAt(r: Re, s: string, i: nat, b: nat)
    requires i <= b <= |s| && Run(r, s, Match(b, b, b)) != []
    ensures var f := Find(r, s, i);
      f.Found? && f.start <= b && Run(r, s, Match(f.start, f.start, f.start)) != [] &&
          f.m == Run(r, s, Match(f.start, f.start, f.start))[0]
    decreases b - i
  {
    if i < b && Run(r, s, Match(i, i, i)) == [] { FindAt(r, s, i + 1, b); }
  }
}
