/** Amounts survive being written into a line and read back, and every amount found is a number of cents. */
module MoneyTheorems {
  import opened Text
  import opened Regex
  import opened RegexTheorems
  import opened Extract
  import opened Money
  import opened Lexing

  predicate NotDigit(c: char) {
    !IsDigit(c)
  }

  predicate NoDigits(s: string, lo: nat, hi: nat) {
    forall k :: lo <= k < hi && k < |s| ==> !IsDigit(s[k])
  }

  // However the match got to b, the amount pattern takes the text up to e.
  ghost predicate ReadsTo(s: string, b: nat, e: nat) {
    && b < e <= |s|
    && IsDigit(s[b])
    && forall m: Match {:trigger Run(AMOUNT, s, m)} :: m.pos == b ==>
        Run(AMOUNT, s, m) != [] && Run(AMOUNT, s, m)[0].pos == e
  }

  // Where the money pattern matches.

  lemma AmountTaken(s: string, m: Match, m': Match) returns (c: nat)
    requires m.pos <= |s| && m' in Run(AMOUNT, s, m)
    ensures m'.pos == c + 3 && (CommaAmount(s, m.pos, c) || PointAmount(s, m.pos, c))
  {
    RunAmount(s, m);
    if m' in Run(GROUPED, s, m) {
      c := GroupedTaken(s, m, m');
    } else if m' in Run(COMMA, s, m) {
      c := CommaTaken(s, m, m');
    } else {
      c := PointTaken(s, m, m');
    }
  }

  lemma CurrencyIsNoDigit()
    ensures OnlyHits(Opt(CURRENCY), NotDigit)
  {
    assert OnlyHits(Chr(Lit('r')), NotDigit) && OnlyHits(Chr(Lit('$')), NotDigit) && OnlyHits(Star(S), NotDigit);
    assert OnlyHits(CURRENCY, NotDigit);
  }

  lemma RunGroup(a: Re, s: string, m: Match)
    requires m.pos <= |s|
    ensures |Run(Group(a), s, m)| == |Run(a, s, m)|
    ensures forall k :: 0 <= k < |Run(a, s, m)| ==>
              Run(Group(a), s, m)[k] == Match(Run(a, s, m)[k].pos, m.pos, Run(a, s, m)[k].pos)
  {
  }

  lemma MoneyRuns(s: string, b: nat, e: nat)
    requires ReadsTo(s, b, e)
    ensures Run(BR_MONEY, s, Match(b, b, b)) != []
  {
    var m := Match(b, b, b);
    OptIntro(CURRENCY, s, m, m);
    RunGroup(AMOUNT, s, m);
    assert Run(AMOUNT, s, m) != [];
    CatIntro(Opt(CURRENCY), Group(AMOUNT), s, m, m, Run(Group(AMOUNT), s, m)[0]);
  }

  // A match of the money pattern is an optional currency sign and then the amount it captures.
  lemma MoneyFirst(s: string, st: nat) returns (b: nat)
    requires st <= |s|
    requires Run(BR_MONEY, s, Match(st, st, st)) != []
    ensures st <= b < |s| && NoDigits(s, st, b) && IsDigit(s[b])
    ensures exists m: Match :: m.pos == b && Run(AMOUNT, s, m) != [] &&
              Run(BR_MONEY, s, Match(st, st, st))[0] == Match(Run(AMOUNT, s, m)[0].pos, b, Run(AMOUNT, s, m)[0].pos)
  {
    var m := Match(st, st, st);
    RunCat(Opt(CURRENCY), Group(AMOUNT), s, m);
    var m1 := EachFirst(Group(AMOUNT), s, st, Run(Opt(CURRENCY), s, m));
    CurrencyIsNoDigit();
    OnlyHitsStays(Opt(CURRENCY), s, m, m1, NotDigit);
    RunGroup(AMOUNT, s, m1);
    b := m1.pos;
    var c := AmountTaken(s, m1, Run(AMOUNT, s, m1)[0]);
    assert m1.pos == b && Run(AMOUNT, s, m1) != [];
  }

  // A digit, a separator and two digits.
  predicate Core(s: string, k: nat) {
    k + 3 < |s| && IsDigit(s[k]) && (s[k + 1] == '.' || s[k + 1] == ',') && IsDigit(s[k + 2]) && IsDigit(s[k + 3])
  }

  // Every amount has one, after digits only.
  lemma {:induction false} CoreOf(s: string, b: nat, c: nat) returns (k: nat)
    requires CommaAmount(s, b, c) || PointAmount(s, b, c)
    ensures b <= k && Core(s, k) && DigitsIn(s, b, k + 1)
    decreases c - b
  {
    if b + 1 < c && IsDigit(s[b + 1]) { k := CoreOf(s, b + 1, c); } else { k := b; }
  }

  // No amount starts between i and b, and none runs into b.
  predicate Quiet(s: string, i: nat, b: nat) {
    b <= |s| && (forall k: nat :: i <= k < b ==> !Core(s, k)) && (i < b ==> !IsDigit(s[b - 1]))
  }

  /** After such a text, the money pattern finds the amount there. */
  lemma FindsAmount(s: string, i: nat, b: nat, e: nat)
    requires i <= b && Quiet(s, i, b) && ReadsTo(s, b, e)
    ensures Find(BR_MONEY, s, i).Found? && Find(BR_MONEY, s, i).m == Match(e, b, e)
  {
    MoneyRuns(s, b, e);
    FindAt(BR_MONEY, s, i, b);
    var st := Find(BR_MONEY, s, i).start;
    var b' := MoneyFirst(s, st);
    if b' < b {
      var m: Match :| m.pos == b' && Run(AMOUNT, s, m) != [];
      var c := AmountTaken(s, m, Run(AMOUNT, s, m)[0]);
      var k := CoreOf(s, b', c);
    }
  }

  lemma ReadsOn(s: string, i: nat, b: nat, e: nat)
    requires i <= b && Quiet(s, i, b) && ReadsTo(s, b, e)
    ensures FindAll(BR_MONEY, s, i) == [s[b..e]] + FindAll(BR_MONEY, s, e)
  {
    FindsAmount(s, i, b, e);
  }

  /** Nothing is found where there is no digit, separator and two digits in a row, */
  lemma NothingFound(s: string, i: nat)
    requires i <= |s| && forall k: nat :: i <= k ==> !Core(s, k)
    ensures Find(BR_MONEY, s, i) == NotFound
  {
    var f := Find(BR_MONEY, s, i);
    if f.Found? {
      FindIs(BR_MONEY, s, i);
      var b := MoneyFirst(s, f.start);
      var m: Match :| m.pos == b && Run(AMOUNT, s, m) != [];
      var c := AmountTaken(s, m, Run(AMOUNT, s, m)[0]);
      var k := CoreOf(s, b, c);
    }
  }

  lemma CoreRuns(s: string, k: nat)
    requires Core(s, k)
    ensures Run(AMOUNT, s, Match(k, k, k)) != []
  {
    var m := Match(k, k, k);
    RunAmount(s, m);
    if s[k + 1] == ',' { CommaRuns(s, m, k + 1); } else { PointRuns(s, m, k + 1); }
  }

  lemma CoreFound(s: string, i: nat, k: nat)
    requires i <= k && Core(s, k)
    ensures Find(BR_MONEY, s, i).Found?
  {
    var m := Match(k, k, k);
    CoreRuns(s, k);
    OptIntro(CURRENCY, s, m, m);
    RunGroup(AMOUNT, s, m);
    CatIntro(Opt(CURRENCY), Group(AMOUNT), s, m, m, Run(Group(AMOUNT), s, m)[0]);
    FindAt(BR_MONEY, s, i, k);
  }

  // How a written amount lies in a line.

  lemma TriplesSnoc(s: string, lo: nat, hi: nat)
    requires lo <= hi && Triples(s, lo, hi) && DotAt(s, hi, hi + 4)
    ensures Triples(s, lo, hi + 4)
    decreases hi - lo
  {
    if lo < hi { TriplesSnoc(s, lo + 4, hi); }
  }

  // A part of a text is laid out in the whole as it is alone.
  predicate PartOf(t: string, s: string, b: nat) {
    b + |t| <= |s| && forall k :: 0 <= k < |t| ==> s[b + k] == t[k]
  }

  lemma DigitsPart(t: string, s: string, b: nat, lo: nat, hi: nat)
    requires PartOf(t, s, b) && DigitsIn(t, lo, hi)
    ensures DigitsIn(s, b + lo, b + hi)
  {
    forall k | b + lo <= k < b + hi ensures IsDigit(s[k]) { assert s[b + (k - b)] == t[k - b]; }
  }

  lemma {:induction false} TriplesPart(t: string, s: string, b: nat, lo: nat, hi: nat)
    requires PartOf(t, s, b) && lo <= hi <= |t| && Triples(t, lo, hi)
    ensures Triples(s, b + lo, b + hi)
    decreases hi - lo
  {
    if lo < hi {
      assert s[b + lo] == t[lo];
      DigitsPart(t, s, b, lo + 1, lo + 4);
      TriplesPart(t, s, b, lo + 4, hi);
    }
  }

  lemma {:induction false} TriplesAreDotted(s: string, lo: nat, hi: nat)
    requires lo <= hi <= |s| && Triples(s, lo, hi)
    ensures Dotted(s, lo, hi)
    decreases hi - lo
  {
    if lo < hi {
      DottedTriple(s, lo);
      TriplesAreDotted(s, lo + 4, hi);
      DottedJoin(s, lo, lo + 4, hi);
    }
  }

  // A grouped number is one to three digits and then groups of three.
  lemma {:induction false} GroupedLayout(n: nat) returns (h: nat)
    ensures 1 <= h <= 3 && h <= |Grouped(n)| && DigitsIn(Grouped(n), 0, h) && Triples(Grouped(n), h, |Grouped(n)|)
  {
    if n < 1000 {
      DecimalIs(n);
      DecimalShort(n);
      h := |Grouped(n)|;
    } else {
      h := GroupedLayout(n / 1000);
      var g, front, group := Grouped(n), Grouped(n / 1000), Three(n);
      ThreeIs(n);
      assert g == front + "." + group;
      assert PartOf(front, g, 0);
      DigitsPart(front, g, 0, 0, h);
      TriplesPart(front, g, 0, h, |front|);
      forall k | |front| + 1 <= k < |front| + 4 ensures IsDigit(g[k]) { assert g[k] == group[k - |front| - 1]; }
      TriplesSnoc(g, h, |front|);
    }
  }

  lemma CentsLayout(body: string, sep: char, cents: nat, s: string, b: nat)
    requires PartOf(body + [sep] + Two(cents), s, b)
    ensures PartOf(body, s, b) && CentsAt(s, b + |body|, sep)
  {
    var t, cc := body + [sep] + Two(cents), Two(cents);
    TwoIs(cents);
    forall k | 0 <= k < |body| ensures s[b + k] == body[k] { assert s[b + k] == t[k]; }
    assert s[b + |body|] == t[|body|] == sep;
    forall k | b + |body| + 1 <= k < b + |body| + 3
      ensures IsDigit(s[k])
    {
      assert s[b + (k - b)] == t[k - b] == cc[k - b - |body| - 1];
    }
  }

  lemma DottedRead(s: string, b: nat, h: nat, c: nat)
    requires b < h <= b + 3 && h <= c && DigitsIn(s, b, h) && Triples(s, h, c) && CentsAt(s, c, ',')
    ensures ReadsTo(s, b, c + 3)
  {
    TriplesAreDotted(s, h, c);
    DottedJoin(s, b, h, c);
    forall m: Match {:trigger Run(AMOUNT, s, m)} | m.pos == b
      ensures Run(AMOUNT, s, m) != [] && Run(AMOUNT, s, m)[0].pos == c + 3
    {
      GroupedRuns(s, m, h, c);
      PrefersComma(s, m, c);
    }
  }

  lemma PlainRead(s: string, b: nat, c: nat)
    requires b < c && DigitsIn(s, b, c) && CentsAt(s, c, ',')
    ensures ReadsTo(s, b, c + 3)
  {
    forall m: Match {:trigger Run(AMOUNT, s, m)} | m.pos == b
      ensures Run(AMOUNT, s, m) != [] && Run(AMOUNT, s, m)[0].pos == c + 3
    {
      CommaRuns(s, m, c);
      PrefersComma(s, m, c);
    }
  }

  lemma PointRead(s: string, b: nat, c: nat)
    requires PointAmount(s, b, c) && EndsAt(s, c + 3)
    ensures ReadsTo(s, b, c + 3)
  {
    forall m: Match {:trigger Run(AMOUNT, s, m)} | m.pos == b
      ensures Run(AMOUNT, s, m) != [] && Run(AMOUNT, s, m)[0].pos == c + 3
    {
      PrefersPoint(s, m, c);
    }
  }

  function Sep(shape: Shape): char {
    if shape.Point? then '.' else ','
  }

  lemma RenderIs(shape: Shape, cents: nat)
    ensures Render(shape, cents) == Body(shape, cents / 100) + [Sep(shape)] + Two(cents)
    ensures |Render(shape, cents)| == |Body(shape, cents / 100)| + 3
  {
  }

  lemma GroupsRead(n: nat, s: string, b: nat)
    requires PartOf(Grouped(n), s, b) && CentsAt(s, b + |Grouped(n)|, ',')
    ensures ReadsTo(s, b, b + |Grouped(n)| + 3)
  {
    var h := GroupedLayout(n);
    DigitsPart(Grouped(n), s, b, 0, h);
    TriplesPart(Grouped(n), s, b, h, |Grouped(n)|);
    DottedRead(s, b, b + h, b + |Grouped(n)|);
  }

  lemma DecimalRead(n: nat, sep: char, s: string, b: nat)
    requires PartOf(Decimal(n), s, b) && CentsAt(s, b + |Decimal(n)|, sep)
    requires sep == ',' || (sep == '.' && EndsAt(s, b + |Decimal(n)| + 3))
    ensures ReadsTo(s, b, b + |Decimal(n)| + 3)
  {
    DecimalIs(n);
    DigitsPart(Decimal(n), s, b, 0, |Decimal(n)|);
    if sep == '.' { PointRead(s, b, b + |Decimal(n)|); } else { PlainRead(s, b, b + |Decimal(n)|); }
  }

  lemma RenderLies(shape: Shape, cents: nat, s: string, b: nat)
    requires PartOf(Render(shape, cents), s, b)
    ensures var body := Body(shape, cents / 100);
      PartOf(body, s, b) && CentsAt(s, b + |body|, Sep(shape)) && |Render(shape, cents)| == |body| + 3
  {
    RenderIs(shape, cents);
    CentsLayout(Body(shape, cents / 100), Sep(shape), cents, s, b);
  }

  lemma BodyRead(shape: Shape, n: nat, s: string, b: nat)
    requires PartOf(Body(shape, n), s, b) && CentsAt(s, b + |Body(shape, n)|, Sep(shape))
    requires EndsAt(s, b + |Body(shape, n)| + 3)
    ensures ReadsTo(s, b, b + |Body(shape, n)| + 3)
  {
    match shape
    case Groups => GroupsRead(n, s, b);
    case Plain => DecimalRead(n, ',', s, b);
    case Point => DecimalRead(n, '.', s, b);
  }

  /** An amount written anywhere in a line, with no digit right after it, is read to its end. */
  lemma RenderRead(shape: Shape, cents: nat, s: string, b: nat)
    requires PartOf(Render(shape, cents), s, b) && EndsAt(s, b + |Render(shape, cents)|)
    ensures ReadsTo(s, b, b + |Render(shape, cents)|)
  {
    RenderLies(shape, cents, s, b);
    BodyRead(shape, cents / 100, s, b);
  }

  // A line of amounts with text between them.

  datatype Piece = Piece(before: string, shape: Shape, cents: nat)

  function Write(pieces: seq<Piece>, tail: string): string {
    if pieces == [] then tail
    else pieces[0].before + Render(pieces[0].shape, pieces[0].cents) + Write(pieces[1..], tail)
  }

  function Amounted(pieces: seq<Piece>): seq<real> {
    if pieces == [] then [] else Taken(Worth(pieces[0].cents)) + Amounted(pieces[1..])
  }

  function Texts(pieces: seq<Piece>): seq<string> {
    if pieces == [] then [] else [Render(pieces[0].shape, pieces[0].cents)] + Texts(pieces[1..])
  }

  // A text without an amount of its own,
  ghost predicate Calm(s: string) {
    forall k: nat :: !Core(s, k)
  }

  // and one that does not begin one with the digits after it either.
  ghost predicate Gap(s: string) {
    s == "" || (!IsDigit(s[|s| - 1]) && Calm(s + "00"))
  }

  // Such texts around the amounts, with something other than a digit right after each.
  ghost predicate Spaced(pieces: seq<Piece>, tail: string) {
    && Calm(tail) && (pieces != [] && tail != "" ==> !IsDigit(tail[0]))
    && (forall k :: 0 <= k < |pieces| ==> Gap(pieces[k].before))
    && (forall k :: 1 <= k < |pieces| ==> pieces[k].before != "" && !IsDigit(pieces[k].before[0]))
  }

  lemma CoreInGap(gap: string, s: string, i: nat, k: nat)
    requires PartOf(gap, s, i) && i <= k && k + 1 < i + |gap| && Core(s, k)
    ensures Core(gap + "00", k - i)
  {
    var n := k - i;
    assert s[i + n] == gap[n] && s[i + (n + 1)] == gap[n + 1];
    if n + 2 < |gap| { assert s[i + (n + 2)] == gap[n + 2]; }
    if n + 3 < |gap| { assert s[i + (n + 3)] == gap[n + 3]; }
  }

  lemma GapIsQuiet(gap: string, s: string, i: nat)
    requires Gap(gap) && PartOf(gap, s, i)
    ensures Quiet(s, i, i + |gap|)
  {
    if gap != "" { assert s[i + (|gap| - 1)] == gap[|gap| - 1]; }
    forall k: nat | i <= k < i + |gap| ensures !Core(s, k) {
      if Core(s, k) && k + 1 < i + |gap| { CoreInGap(gap, s, i, k); }
    }
  }

  // After the first amount comes something other than a digit, and the rest is as the whole.
  lemma SpacedRest(pieces: seq<Piece>, tail: string)
    requires Spaced(pieces, tail) && pieces != []
    ensures Spaced(pieces[1..], tail)
    ensures var rest := Write(pieces[1..], tail); rest != "" ==> !IsDigit(rest[0])
  {
    if |pieces| > 1 { assert pieces[1..][0] == pieces[1]; }
  }

  // The first amount is found, and the search goes on after it.
  lemma PieceFound(p: Piece, rest: string, front: string)
    requires Gap(p.before) && (rest != "" ==> !IsDigit(rest[0]))
    ensures var text := Render(p.shape, p.cents);
      var s, e := front + p.before + text + rest, |front + p.before + text|;
      FindAll(BR_MONEY, s, |front|) == [text] + FindAll(BR_MONEY, s, e)
  {
    var text := Render(p.shape, p.cents);
    var s, b, e := front + p.before + text + rest, |front| + |p.before|, |front| + |p.before| + |text|;
    assert s[b..e] == text;
    assert PartOf(text, s, b);
    GapIsQuiet(p.before, s, |front|);
    RenderRead(p.shape, p.cents, s, b);
    ReadsOn(s, |front|, b, e);
  }

  lemma TailFound(tail: string, front: string)
    requires Calm(tail)
    ensures FindAll(BR_MONEY, front + tail, |front|) == []
  {
    var s := front + tail;
    forall k: nat | |front| <= k ensures !Core(s, k) { assert !Core(tail, k - |front|); }
    NothingFound(s, |front|);
  }

  lemma WriteFirst(front: string, p: Piece, rest: string)
    ensures front + (p.before + Render(p.shape, p.cents) + rest) == front + p.before + Render(p.shape, p.cents) + rest
  {
  }

  lemma {:induction false} WriteFound(pieces: seq<Piece>, tail: string, front: string)
    requires Spaced(pieces, tail)
    ensures FindAll(BR_MONEY, front + Write(pieces, tail), |front|) == Texts(pieces)
    decreases |pieces|
  {
    if pieces == [] {
      TailFound(tail, front);
    } else {
      var p, rest := pieces[0], Write(pieces[1..], tail);
      SpacedRest(pieces, tail);
      PieceFound(p, rest, front);
      WriteFound(pieces[1..], tail, front + p.before + Render(p.shape, p.cents));
      WriteFirst(front, p, rest);
    }
  }

  lemma {:induction false} TextsRead(pieces: seq<Piece>)
    ensures Amounts(Texts(pieces)) == Amounted(pieces)
  {
    if pieces != [] {
      RenderParses(pieces[0].shape, pieces[0].cents);
      TextsRead(pieces[1..]);
      assert Texts(pieces)[1..] == Texts(pieces[1..]);
    }
  }

  /** The amounts written into a line, in any of the three shapes, are the amounts read from it, in order
      and nothing else; only one too large for a float64 is left out. */
  lemma AmountsRoundTrip(letters: Letters, pieces: seq<Piece>, tail: string)
    requires Spaced(pieces, tail)
    ensures ParseAmounts(Patterns(letters), Write(pieces, tail)) == Amounted(pieces)
  {
    WriteFound(pieces, tail, "");
    TextsRead(pieces);
    assert "" + Write(pieces, tail) == Write(pieces, tail);
  }

  /** One amount alone. */
  lemma AmountRoundTrip(letters: Letters, before: string, shape: Shape, cents: nat, after: string)
    requires Gap(before) && Calm(after) && (after != "" ==> !IsDigit(after[0]))
    ensures ParseAmounts(Patterns(letters), before + Render(shape, cents) + after) == Taken(Worth(cents))
  {
    var pieces := [Piece(before, shape, cents)];
    AmountsRoundTrip(letters, pieces, after);
    assert pieces[1..] == [];
    assert Write(pieces, after) == before + Render(shape, cents) + after;
    assert Amounted(pieces) == Taken(Worth(cents)) + [];
  }

  /** So "every match parses" fails: a written amount is found and dropped exactly when it is too large. */
  lemma AmountDroppedIff(letters: Letters, before: string, shape: Shape, cents: nat, after: string)
    requires Gap(before) && Calm(after) && (after != "" ==> !IsDigit(after[0]))
    ensures ParseAmounts(Patterns(letters), before + Render(shape, cents) + after) == [] <==> cents >= 100 * TOO_LARGE
  {
    AmountRoundTrip(letters, before, shape, cents, after);
  }

  // Every match, in any line.

  function OnlyDigits(s: string): (r: string)
    ensures AllDigits(r)
  {
    if s == "" then "" else (if IsDigit(s[0]) then [s[0]] else "") + OnlyDigits(s[1..])
  }

  lemma OnlyDigitsCons(x: char, s: string)
    ensures OnlyDigits([x] + s) == (if IsDigit(x) then [x] else "") + OnlyDigits(s)
  {
    assert ([x] + s)[1..] == s;
  }

  lemma {:induction false} OnlyDigitsConcat(a: string, b: string)
    ensures OnlyDigits(a + b) == OnlyDigits(a) + OnlyDigits(b)
  {
    if a == "" {
      assert a + b == b;
    } else {
      var x, rest := a[0], a[1..];
      OnlyDigitsConcat(rest, b);
      OnlyDigitsCons(x, rest + b);
      OnlyDigitsCons(x, rest);
      assert a == [x] + rest && a + b == [x] + (rest + b);
    }
  }

  lemma {:induction false} OnlyDots(body: string)
    requires forall k :: 0 <= k < |body| ==> IsDigit(body[k]) || body[k] == '.'
    ensures Without(body, '.') == OnlyDigits(body)
  {
    if body != "" { OnlyDots(body[1..]); }
  }

  lemma {:induction false} OnlyDigitsAll(s: string)
    requires AllDigits(s)
    ensures OnlyDigits(s) == s
  {
    if s != "" {
      OnlyDigitsAll(s[1..]);
      assert s == [s[0]] + s[1..];
    }
  }

  lemma OnlyOther(sep: char)
    requires !IsDigit(sep)
    ensures OnlyDigits([sep]) == ""
  {
    assert [sep][1..] == "" && OnlyDigits([sep][1..]) == "";
  }

  lemma OnlySplit(body: string, sep: char, cc: string)
    requires !IsDigit(sep) && AllDigits(cc)
    ensures OnlyDigits(body + [sep] + cc) == OnlyDigits(body) + cc
  {
    OnlyDigitsConcat(body + [sep], cc);
    OnlyDigitsConcat(body, [sep]);
    OnlyOther(sep);
    OnlyDigitsAll(cc);
    var o := OnlyDigits(body);
    assert o + "" == o;
  }

  lemma AmountWorth(s: string, b: nat, c: nat)
    requires CommaAmount(s, b, c) || PointAmount(s, b, c)
    ensures ParseMoney(s[b..c + 3]) == Worth(Value(OnlyDigits(s[b..c + 3])))
  {
    var body, sep, cc := s[b..c], s[c], s[c + 1..c + 3];
    assert s[b..c + 3] == body + [sep] + cc;
    assert body[0] == s[b];
    forall k | 0 <= k < |body|
      ensures IsDigit(body[k]) || (sep == ',' && body[k] == '.')
    {
      assert body[k] == s[b + k];
    }
    OnlyDots(body);
    OnlySplit(body, sep, cc);
    assert Without(body, '.') != "" by {
      assert body == [body[0]] + body[1..];
      WithoutConcat([body[0]], body[1..], '.');
      WithoutNone([body[0]], '.');
    }
    if sep == ',' { ParseComma(body, cc); } else { ParsePoint(body, cc); }
  }

  lemma MatchIsCents(s: string, i: nat)
    requires i <= |s|
    ensures var f := Find(BR_MONEY, s, i);
      f.Found? ==> f.m.pos > i && f.m.from <= f.m.to <= |s| &&
                   ParseMoney(s[f.m.from..f.m.to]) == Worth(Value(OnlyDigits(s[f.m.from..f.m.to])))
  {
    var f := Find(BR_MONEY, s, i);
    if f.Found? {
      FindIs(BR_MONEY, s, i);
      var b := MoneyFirst(s, f.start);
      var m: Match :| m.pos == b && Run(AMOUNT, s, m) != [] &&
          f.m == Match(Run(AMOUNT, s, m)[0].pos, b, Run(AMOUNT, s, m)[0].pos);
      var c := AmountTaken(s, m, Run(AMOUNT, s, m)[0]);
      AmountWorth(s, b, c);
    }
  }

  /** Whatever the line, each match of the money pattern is worth its digits read as cents, and fails to
      parse only when that is too large for a float64. */
  lemma {:induction false} MatchesAreCents(s: string, i: nat)
    requires i <= |s|
    ensures forall g :: g in FindAll(BR_MONEY, s, i) ==> ParseMoney(g) == Worth(Value(OnlyDigits(g)))
    decreases |s| - i
  {
    MatchIsCents(s, i);
    var f := Find(BR_MONEY, s, i);
    if f.Found? { MatchesAreCents(s, f.m.pos); }
  }

  /** A line holds something the money pattern takes exactly if it has a digit, a point or comma, and two digits
      in a row. */
  lemma FoundIff(s: string)
    ensures FindAll(BR_MONEY, s, 0) == [] <==> Calm(s)
  {
    if Calm(s) {
      NothingFound(s, 0);
    } else {
      var k: nat :| Core(s, k);
      CoreFound(s, 0, k);
      MatchIsCents(s, 0);
    }
  }
}
