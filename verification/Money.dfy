/** Amounts of money as the parser writes and reads them. */
module Money {
  import opened Text
  import opened Regex
  import opened Extract

  // Writing an amount in cents in one of the three shapes the money pattern accepts.

  datatype Shape = Groups | Plain | Point  // 1.234,56   1234,56   1234.56

  function DigitOf(d: nat): char
    requires d < 10
  {
    ('0' as int + d) as char
  }

  function Decimal(n: nat): string {
    (if n < 10 then "" else Decimal(n / 10)) + [DigitOf(n % 10)]
  }

  function Two(n: nat): string {
    [DigitOf(n / 10 % 10)] + [DigitOf(n % 10)]
  }

  function Three(n: nat): string {
    Two(n / 10) + [DigitOf(n % 10)]
  }

  function Grouped(n: nat): string {
    if n < 1000 then Decimal(n) else Grouped(n / 1000) + "." + Three(n)
  }

  function Body(shape: Shape, n: nat): string {
    if shape.Groups? then Grouped(n) else Decimal(n)
  }

  function Render(shape: Shape, cents: nat): string {
    Body(shape, cents / 100) + (if shape.Point? then "." else ",") + Two(cents)
  }

  // What a written amount is worth, if a float64 can hold it.
  function Worth(cents: nat): Option<real> {
    InRange(cents as real / 100.0)
  }

  // Reading digits.

  lemma TenTimes(v: int, p: int, x: int, d: int)
    ensures 10 * (v * p + x) + d == v * (10 * p) + (10 * x + d)
  {
  }

  lemma {:induction false} ValueConcat(a: string, b: string)
    requires AllDigits(a) && AllDigits(b)
    ensures AllDigits(a + b) && Value(a + b) == Value(a) * Pow10(|b|) + Value(b)
  {
    if b == "" {
      assert a + b == a;
    } else {
      var front, last := b[..|b| - 1], b[|b| - 1];
      ValueConcat(a, front);
      assert (a + b)[..|a + b| - 1] == a + front && (a + b)[|a + b| - 1] == last;
      TenTimes(Value(a), Pow10(|front|), Value(front), last as int - '0' as int);
    }
  }

  lemma ValueSnoc(a: string, d: nat)
    requires AllDigits(a) && d < 10
    ensures AllDigits(a + [DigitOf(d)]) && Value(a + [DigitOf(d)]) == 10 * Value(a) + d
  {
    var s := a + [DigitOf(d)];
    assert s[..|s| - 1] == a;
  }

  lemma {:induction false} DecimalIs(n: nat)
    ensures AllDigits(Decimal(n)) && Value(Decimal(n)) == n && |Decimal(n)| >= 1
  {
    if n >= 10 {
      DecimalIs(n / 10);
      ValueSnoc(Decimal(n / 10), n % 10);
    } else {
      ValueSnoc("", n);
      assert "" + [DigitOf(n)] == Decimal(n);
    }
  }

  lemma DecimalShort(n: nat)
    requires n < 1000
    ensures |Decimal(n)| <= 3
  {
    if n >= 10 {
      assert |Decimal(n)| == |Decimal(n / 10)| + 1;
      if n >= 100 { assert |Decimal(n / 10)| == |Decimal(n / 10 / 10)| + 1; }
    }
  }

  lemma OneIs(d: nat)
    requires d < 10
    ensures AllDigits([DigitOf(d)]) && Value([DigitOf(d)]) == d
  {
    assert [DigitOf(d)][..0] == "";
  }

  lemma LastTwo(n: nat)
    ensures n / 10 % 10 * 10 + n % 10 == n % 100
  {
  }

  lemma TwoIs(n: nat)
    ensures |Two(n)| == 2 && AllDigits(Two(n)) && Value(Two(n)) == n % 100
  {
    var d := n / 10 % 10;
    OneIs(d);
    ValueSnoc([DigitOf(d)], n % 10);
    LastTwo(n);
  }

  lemma ThreeIs(n: nat)
    ensures |Three(n)| == 3 && AllDigits(Three(n)) && Value(Three(n)) == n % 1000
  {
    TwoIs(n / 10);
    ValueSnoc(Two(n / 10), n % 10);
  }

  lemma WithoutCons(x: char, s: string, c: char)
    ensures Without([x] + s, c) == (if x == c then "" else [x]) + Without(s, c)
  {
    assert ([x] + s)[1..] == s;
  }

  lemma {:induction false} WithoutConcat(a: string, b: string, c: char)
    ensures Without(a + b, c) == Without(a, c) + Without(b, c)
  {
    if a == "" {
      assert a + b == b;
    } else {
      var x, rest := a[0], a[1..];
      WithoutConcat(rest, b, c);
      WithoutCons(x, rest + b, c);
      WithoutCons(x, rest, c);
      assert a == [x] + rest && a + b == [x] + (rest + b);
    }
  }

  lemma {:induction false} WithoutNone(s: string, c: char)
    requires c !in s
    ensures Without(s, c) == s
  {
    if s != "" {
      assert s == [s[0]] + s[1..];
      WithoutNone(s[1..], c);
    }
  }

  lemma WithoutPoint(front: string, group: string)
    requires '.' !in group
    ensures Without(front + "." + group, '.') == Without(front, '.') + group
  {
    WithoutConcat(front + ".", group, '.');
    WithoutConcat(front, ".", '.');
    WithoutNone(group, '.');
    assert Without(".", '.') == "" by { assert "."[1..] == ""; }
    assert Without(front, '.') + "" == Without(front, '.');
  }

  lemma GroupedStep(front: string, n: nat)
    requires AllDigits(Without(front, '.'))
    ensures var r := Without(front + "." + Three(n), '.');
      AllDigits(r) && Value(r) == 1000 * Value(Without(front, '.')) + n % 1000
  {
    var digits := Without(front, '.');
    ThreeIs(n);
    WithoutPoint(front, Three(n));
    ValueConcat(digits, Three(n));
    assert Pow10(|Three(n)|) == 1000 by { PowThree(); }
  }

  lemma PowThree()
    ensures Pow10(1) == 10 && Pow10(2) == 100 && Pow10(3) == 1000
  {
  }

  lemma {:induction false} GroupedIs(n: nat)
    ensures AllDigits(Without(Grouped(n), '.')) && Value(Without(Grouped(n), '.')) == n
  {
    if n < 1000 {
      DecimalIs(n);
      WithoutNone(Decimal(n), '.');
    } else {
      GroupedIs(n / 1000);
      GroupedStep(Grouped(n / 1000), n);
    }
  }

  // Reading an amount.

  // Digits, with dots between them when the cents follow a comma.
  predicate Whole(body: string, sep: char) {
    AllDigits(Without(body, '.')) && Without(body, '.') != "" && IsDigit(body[0]) && ',' !in body &&
        (sep == '.' ==> '.' !in body)
  }

  predicate Cents(cc: string) {
    |cc| == 2 && AllDigits(cc)
  }

  lemma {:induction false} IndexOfPoint(a: string, b: string)
    requires '.' !in a
    ensures Index(a + "." + b, ".") == |a|
  {
    var s := a + "." + b;
    if a == "" {
      assert s[..1] == ".";
    } else {
      assert s[..1] != "." by { assert s[0] == a[0]; }
      assert s[1..] == a[1..] + "." + b;
      IndexOfPoint(a[1..], b);
    }
  }

  lemma NumberOfCents(digits: string)
    requires AllDigits(digits)
    ensures Number(digits, 2) == Value(digits) as real / 100.0
  {
    PowThree();
  }

  lemma ParseDigits(whole: string, frac: string)
    requires AllDigits(whole) && whole != "" && Cents(frac)
    ensures AllDigits(whole + frac) && ParseFloat(whole + "." + frac) == Worth(Value(whole + frac))
  {
    var s := whole + "." + frac;
    assert ParseFloat(s) == ParseParts(whole, frac) by {
      IndexOfPoint(whole, frac);
      assert s[..|whole|] == whole && s[|whole|..][1..] == frac;
    }
    NumberOfCents(whole + frac);
  }

  lemma WithoutPoints(body: string, cc: string)
    requires Cents(cc)
    ensures Without(body + "," + cc, '.') == Without(body, '.') + "," + cc
  {
    WithoutConcat(body + ",", cc, '.');
    WithoutConcat(body, ",", '.');
    WithoutNone(",", '.');
    WithoutNone(cc, '.');
  }

  lemma CommaToPoint(whole: string, cc: string)
    requires ',' !in whole && ',' !in cc
    ensures Replace(whole + "," + cc, ',', '.') == whole + "." + cc
  {
  }

  lemma ParseComma(body: string, cc: string)
    requires Whole(body, ',') && Cents(cc)
    ensures AllDigits(Without(body, '.') + cc) && ParseMoney(body + "," + cc) == Worth(Value(Without(body, '.') + cc))
  {
    var raw, whole := body + "," + cc, Without(body, '.');
    TrimSpaceIs(raw);
    assert raw[0] == body[0] && raw[|raw| - 1] == cc[1];
    assert TrimSpace(raw) == raw;
    assert raw[|body|] == ',';
    WithoutPoints(body, cc);
    CommaToPoint(whole, cc);
    ParseDigits(whole, cc);
  }

  lemma ParsePoint(body: string, cc: string)
    requires Whole(body, '.') && Cents(cc)
    ensures Without(body, '.') == body && AllDigits(body + cc) && ParseMoney(body + "." + cc) == Worth(Value(body + cc))
  {
    var raw := body + "." + cc;
    WithoutNone(body, '.');
    TrimSpaceIs(raw);
    assert raw[0] == body[0] && raw[|raw| - 1] == cc[1];
    assert TrimSpace(raw) == raw;
    assert ',' !in raw;
    ParseDigits(body, cc);
  }

  lemma {:induction false} GroupedChars(n: nat)
    ensures Grouped(n) != "" && IsDigit(Grouped(n)[0]) && ',' !in Grouped(n)
  {
    if n < 1000 {
      DecimalIs(n);
    } else {
      GroupedChars(n / 1000);
      ThreeIs(n);
    }
  }

  lemma BodyIsWhole(shape: Shape, n: nat)
    ensures var body := Body(shape, n);
      Whole(body, if shape.Point? then '.' else ',') && Value(Without(body, '.')) == n
  {
    if shape.Groups? {
      GroupedIs(n);
      GroupedChars(n);
      var body := Grouped(n);
      WithoutConcat([body[0]], body[1..], '.');
      WithoutNone([body[0]], '.');
      assert body == [body[0]] + body[1..];
    } else {
      DecimalIs(n);
      WithoutNone(Decimal(n), '.');
    }
  }

  lemma CentsValue(body: string, cents: nat)
    requires AllDigits(body) && Value(body) == cents / 100
    ensures AllDigits(body + Two(cents)) && Value(body + Two(cents)) == cents
  {
    TwoIs(cents);
    ValueConcat(body, Two(cents));
    PowThree();
  }

  /** Every rendering of an amount is read back as that amount. */
  lemma RenderParses(shape: Shape, cents: nat)
    ensures ParseMoney(Render(shape, cents)) == Worth(cents)
  {
    var body, cc := Body(shape, cents / 100), Two(cents);
    BodyIsWhole(shape, cents / 100);
    TwoIs(cents);
    CentsValue(Without(body, '.'), cents);
    if shape.Point? { ParsePoint(body, cc); } else { ParseComma(body, cc); }
  }
}
