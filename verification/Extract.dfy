/** internal/extract: items and totals guessed from OCR text.
    Amounts are exact decimals, kept as reals; `Letters` stands for the Unicode class \p{L}. */
module Extract {
  import opened Text
  import opened Regex

  // In ASCII \p{L} is the letters; beyond it, whatever the Unicode tables say.
  type Letters = f: char -> bool |
    forall c: char :: c as int < 128 ==> (f(c) <==> 'A' <= c <= 'Z' || 'a' <= c <= 'z')
    witness c => 'A' <= c <= 'Z' || 'a' <= c <= 'z'

  datatype Item = Item(description: string, quantity: real, unitAmount: real, lineTotal: real)

  datatype Result = Result(items: seq<Item>, estimatedTotal: real, computedItemsTotal: real, foundTotal: bool)

  datatype Option<T> = None | Some(value: T)

  const UNLABELED := "unlabeled item"
  const LINE_DELTA := 0.05

  // The patterns.

  const D := Chr(Digit)
  const S := Chr(Space)
  const TIMES := Chr(OneOf("x×*"))

  const DD := Cat(D, D)
  const DDD := Cat(D, DD)
  const HEAD := Cat(D, Opt(Cat(D, Opt(D))))
  const TRIPLE := Cat(Chr(Lit('.')), DDD)
  const COMMA_CENTS := Cat(Chr(Lit(',')), DD)
  const POINT_CENTS := Cat(Chr(Lit('.')), DD)
  const GROUPED := Cat(HEAD, Cat(Star(TRIPLE), COMMA_CENTS))
  const COMMA := Cat(Plus(D), COMMA_CENTS)
  const POINT := Cat(Plus(D), POINT_CENTS)
  const AMOUNT := Alt(GROUPED, Alt(COMMA, POINT))
  const CURRENCY := Cat(Chr(Lit('r')), Cat(Chr(Lit('$')), Star(S)))
  const BR_MONEY := Cat(Opt(CURRENCY), Group(AMOUNT))

  const NUMBER := Cat(Plus(D), Opt(Cat(Chr(OneOf(".,")), Plus(D))))
  const QTY_WORD := AnyOf([Word("qtd"), Word("qty"), Cat(Word("quant"), Opt(Word("idade")))])
  const QTY_PREFIX := Cat(Bol, Cat(QTY_WORD, Cat(Star(S), Cat(Opt(Chr(OneOf(":x×*"))), Cat(Star(S), Group(NUMBER))))))
  const QTY_UNIT := AnyOf([TIMES, Word("un"), Word("unid"), Cat(Word("pc"), Opt(Word("s")))])
  const QTY_INLINE := Cat(Edge, Cat(Group(NUMBER), Cat(Star(S), Cat(QTY_UNIT, Edge))))
  const QTY_TIMES := Cat(Bol, Cat(Star(S), Cat(Group(NUMBER), Cat(Star(S), Cat(TIMES, Star(S))))))

  const TOTAL_WORDS :=
    [Word("total"), Cat(Word("valor"), Cat(Star(S), Word("total"))), Cat(Word("total"), Cat(Star(S), Word("geral"))),
     Cat(Word("amount"), Cat(Star(S), Word("due")))]
  const TOTAL_LINE := Cat(Edge, Cat(AnyOf(TOTAL_WORDS), Edge))
  const INSCRICAO := Cat(Word("inscri"), Cat(Chr(OneOf("cç")), Cat(Chr(OneOf("aã")), Word("o"))))
  const META_WORDS := [Word("cnpj"), Word("cpf"), Word("cnpj/cpf"), Word("ie"), Word("im"), INSCRICAO]
  const META_LINE := Cat(Bol, Cat(AnyOf(META_WORDS), Edge))
  const PAY_WORDS :=
    [Cat(Word("forma"), Cat(Plus(S), Cat(Word("de"), Cat(Plus(S), Word("pagamento"))))), Word("pagamento"),
     Cat(Word("cart"), Cat(Chr(OneOf("aã")), Word("o"))), Word("dinheiro"), Cat(Edge, Cat(Word("pix"), Edge))]
  const PAY_LINE := AnyOf(PAY_WORDS)
  const BARCODE := Cat(Bol, Cat(Cat(Cat(DD, DD), Cat(DD, DD)), Cat(Star(D), Star(S))))
  const JUNK_DESC := Cat(Bol, Cat(Plus(Chr(OneOf("\t\n\U{0C}\r ×x*=.-"))), Eol))

  // The patterns as one value.
  datatype Lexicon = Lexicon(
    letters: Letters, money: Re, qtyPrefix: Re, qtyInline: Re, qtyTimes: Re, total: Re,
    meta: Re, pay: Re, barcode: Re, junk: Re)

  function Patterns(letters: Letters): Lexicon {
    Lexicon(letters, BR_MONEY, QTY_PREFIX, QTY_INLINE, QTY_TIMES, TOTAL_LINE, META_LINE, PAY_LINE, BARCODE, JUNK_DESC)
  }

  // Numbers.

  predicate AllDigits(s: string) {
    forall k :: 0 <= k < |s| ==> IsDigit(s[k])
  }

  function Value(s: string): nat
    requires AllDigits(s)
  {
    if s == "" then 0 else 10 * Value(s[..|s| - 1]) + (s[|s| - 1] as int - '0' as int)
  }

  function Pow10(n: nat): (p: nat)
    ensures p >= 1
  {
    if n == 0 then 1 else 10 * Pow10(n - 1)
  }

  // strconv.ParseFloat reports a range error from here on: the value rounds to no float64.
  // It is 2^1024 - 2^970.
  const TOO_LARGE: int := 0xFFFF_FFFF_FFFF_FC00_0000_0000_0000_0000_0000_0000_0000_0000_0000_0000_0000_0000_0000_0000_0000_0000_0000_0000_0000_0000_0000_0000_0000_0000_0000_0000_0000_0000_0000_0000_0000_0000_0000_0000_0000_0000_0000_0000_0000_0000_0000_0000_0000_0000_0000_0000_0000_0000_0000_0000_0000_0000_0000_0000_0000_0000_0000_0000_0000_0000

  // The value of digits of which the last `places` come after the point.
  function Number(digits: string, places: nat): (v: real)
    requires AllDigits(digits)
    ensures v >= 0.0
  {
    Value(digits) as real / Pow10(places) as real
  }

  function InRange(v: real): Option<real> {
    if v < TOO_LARGE as real then Some(v) else None
  }

  // strconv.ParseFloat on the texts that reach it here: digits, possibly a point and more digits.
  function ParseFloat(s: string): (r: Option<real>)
    ensures r.Some? ==> r.value >= 0.0
  {
    var i := Index(s, ".");
    if i < 0 then ParseParts(s, "") else ParseParts(s[..i], s[i..][1..])
  }

  function ParseParts(whole: string, frac: string): (r: Option<real>)
    ensures r.Some? ==> r.value >= 0.0
  {
    if whole != "" && AllDigits(whole) && AllDigits(frac) then InRange(Number(whole + frac, |frac|)) else None
  }

  function Without(s: string, c: char): string {
    if s == "" then "" else (if s[0] == c then "" else [s[0]]) + Without(s[1..], c)
  }

  function Replace(s: string, c: char, d: char): (r: string)
    ensures |r| == |s|
  {
    seq(|s|, k requires 0 <= k < |s| => if s[k] == c then d else s[k])
  }

  function ParseMoney(raw: string): (r: Option<real>)
    ensures r.Some? ==> r.value >= 0.0
  {
    var s := TrimSpace(raw);
    ParseFloat(if ',' in s then Replace(Without(s, '.'), ',', '.') else s)
  }

  function Taken(m: Option<real>): seq<real> {
    match m
    case Some(v) => [v]
    case None => []
  }

  function Amounts(groups: seq<string>): seq<real> {
    if groups == [] then []
    else Taken(ParseMoney(groups[0])) + Amounts(groups[1..])
  }

  function ParseAmounts(lx: Lexicon, line: string): seq<real> {
    Amounts(FindAll(lx.money, line, 0))
  }

  function Submatch(r: Re, line: string): Option<real> {
    match Find(r, line, 0)
    case NotFound => None
    case Found(_, m) => if m.from <= m.to <= |line| then ParseMoney(line[m.from..m.to]) else None
  }

  function ParseQty(lx: Lexicon, line: string): real {
    match Submatch(lx.qtyPrefix, line)
    case Some(v) => v
    case None =>
      match Submatch(lx.qtyTimes, line)
      case Some(v) => v
      case None =>
        match Submatch(lx.qtyInline, line)
        case Some(v) => v
        case None => 0.0
  }

  // Descriptions.

  // strings.Fields: what lies between the spaces; `word` is the field being read.
  function Fields(s: string, word: string): seq<string> {
    if s == "" then (if word == "" then [] else [word])
    else if IsSpace(s[0]) then (if word == "" then [] else [word]) + Fields(s[1..], "")
    else Fields(s[1..], word + [s[0]])
  }

  function JoinWords(words: seq<string>): string {
    if words == [] then "" else if |words| == 1 then words[0] else words[0] + " " + JoinWords(words[1..])
  }

  function StripNumbers(lx: Lexicon, line: string): string {
    var a := ReplaceAll(lx.money, line, " ", 0);
    var b := ReplaceAll(lx.qtyPrefix, a, " ", 0);
    var c := ReplaceAll(lx.qtyTimes, b, " ", 0);
    var d := ReplaceAll(lx.qtyInline, c, " ", 0);
    TrimSpace(JoinWords(Fields(Replace(d, '=', ' '), "")))
  }

  predicate HasLetter(lx: Lexicon, line: string) {
    exists k :: 0 <= k < |line| && lx.letters(line[k])
  }

  predicate LooksLikeProduct(lx: Lexicon, line: string) {
    !MatchString(lx.meta, line) && !MatchString(lx.pay, line) && HasLetter(lx, line)
  }

  function ProductName(lx: Lexicon, line: string): string {
    TrimSpace(ReplaceAll(lx.barcode, line, "", 0))
  }

  function Quantity(lx: Lexicon, line: string): real {
    var q := ParseQty(lx, line);
    if q == 0.0 then 1.0 else q
  }

  // The line's own description, if it is one.
  function OwnDesc(lx: Lexicon, line: string): string {
    var own := StripNumbers(lx, line);
    if own == "" || MatchString(lx.junk, own) then "" else own
  }

  function MakeItem(own: string, quantity: real, amounts: seq<real>, pendingDesc: string): Item
    requires amounts != []
  {
    var desc := if own == "" then pendingDesc else own;
    Item(if desc == "" then UNLABELED else desc, quantity, amounts[0],
         if |amounts| == 1 then amounts[0] * quantity else Last(amounts))
  }

  function ItemFromLine(lx: Lexicon, line: string, amounts: seq<real>, pendingDesc: string): Item
    requires amounts != []
  {
    MakeItem(OwnDesc(lx, line), Quantity(lx, line), amounts, pendingDesc)
  }

  function Last(amounts: seq<real>): real
    requires amounts != []
  {
    amounts[|amounts| - 1]
  }

  // The loop of Parse.

  datatype Scan = Scan(items: seq<Item>, estimated: real, foundTotal: bool, pendingDesc: string, pendingPay: bool)

  const START := Scan([], 0.0, false, "", false)

  // One round, on a trimmed line that is not empty.
  function ScanLine(lx: Lexicon, st: Scan, line: string): Scan {
    if MatchString(lx.meta, line) then st.(pendingDesc := "", pendingPay := false)
    else
      var amounts := ParseAmounts(lx, line);
      if MatchString(lx.pay, line) && amounts == [] then st.(pendingDesc := line, pendingPay := true)
      else if amounts == [] then
        if LooksLikeProduct(lx, line) then st.(pendingDesc := ProductName(lx, line), pendingPay := false) else st
      else if MatchString(lx.total, line) || st.pendingPay then
        Scan(st.items, Last(amounts), true, "", false)
      else st.(items := st.items + [ItemFromLine(lx, line, amounts, st.pendingDesc)], pendingDesc := "")
  }

  function ScanAll(lx: Lexicon, st: Scan, lines: seq<string>): Scan
    decreases |lines|
  {
    if lines == [] then st
    else
      var line := TrimSpace(lines[0]);
      ScanAll(lx, if line == "" then st else ScanLine(lx, st, line), lines[1..])
  }

  function Counted(it: Item): real {
    if it.lineTotal > 0.0 then it.lineTotal else it.quantity * it.unitAmount
  }

  function Computed(items: seq<Item>): real {
    if items == [] then 0.0 else Computed(items[..|items| - 1]) + Counted(items[|items| - 1])
  }

  function Abs(v: real): real {
    if v < 0.0 then -v else v
  }

  // math.Round(v*100) / 100: halves away from zero.
  function Round2(v: real): real {
    if v >= 0.0 then (v * 100.0 + 0.5).Floor as real / 100.0 else -((-v * 100.0 + 0.5).Floor as real / 100.0)
  }

  function ResultOf(st: Scan): Result {
    var computed := Computed(st.items);
    Result(st.items, Round2(if st.foundTotal then st.estimated else computed), Round2(computed), st.foundTotal)
  }

  function ParseSpec(lx: Lexicon, text: string): Result {
    ResultOf(ScanAll(lx, START, Split(text)))
  }

  predicate InconsistentLine(it: Item) {
    it.quantity > 0.0 && it.unitAmount > 0.0 && it.lineTotal > 0.0 &&
    Abs(it.quantity * it.unitAmount - it.lineTotal) > LINE_DELTA
  }

  predicate WeakItem(it: Item) {
    it.description == "" || it.description == UNLABELED || InconsistentLine(it)
  }

  // What Incomplete is for: no items, no total, totals apart, or a weak item.
  predicate IncompleteSpec(r: Result) {
    || r.items == []
    || !r.foundTotal
    || Abs(r.estimatedTotal - r.computedItemsTotal) > LINE_DELTA
    || exists k :: 0 <= k < |r.items| && WeakItem(r.items[k])
  }

  // The loops as extract.go runs them.

  ghost predicate Read(groups: seq<string>, i: nat, out: seq<real>) {
    i <= |groups| && out + Amounts(groups[i..]) == Amounts(groups)
  }

  lemma ReadNext(groups: seq<string>, i: nat, out: seq<real>)
    requires i < |groups| && Read(groups, i, out)
    ensures Read(groups, i + 1, out + Taken(ParseMoney(groups[i])))
  {
    assert groups[i..][0] == groups[i] && groups[i..][1..] == groups[i + 1..];
    var rest := Amounts(groups[i + 1..]);
    assert out + (Taken(ParseMoney(groups[i])) + rest) == out + Taken(ParseMoney(groups[i])) + rest;
  }

  lemma ReadAll(groups: seq<string>, out: seq<real>)
    requires Read(groups, |groups|, out)
    ensures out == Amounts(groups)
  {
  }

  method FindAmounts(lx: Lexicon, line: string) returns (out: seq<real>)
    ensures out == ParseAmounts(lx, line)
  {
    var groups := FindAll(lx.money, line, 0);
    out := [];
    var i := 0;
    while i < |groups|
      invariant Read(groups, i, out)
    {
      ReadNext(groups, i, out);
      var v := ParseMoney(groups[i]);
      if v.Some? {
        out := out + [v.value];
      } else {
        assert out + [] == out;
      }
      i := i + 1;
    }
    ReadAll(groups, out);
  }

  // `st` is what the first i lines leave.
  ghost predicate Scanned(lx: Lexicon, lines: seq<string>, i: nat, st: Scan) {
    i <= |lines| && ScanAll(lx, st, lines[i..]) == ScanAll(lx, START, lines)
  }

  lemma ScannedNone(lx: Lexicon, lines: seq<string>)
    ensures Scanned(lx, lines, 0, START)
  {
    assert lines[0..] == lines;
  }

  lemma ScannedNext(lx: Lexicon, lines: seq<string>, i: nat, st: Scan)
    requires i < |lines| && Scanned(lx, lines, i, st)
    ensures var line := TrimSpace(lines[i]);
      Scanned(lx, lines, i + 1, if line == "" then st else ScanLine(lx, st, line))
  {
    assert lines[i..][0] == lines[i] && lines[i..][1..] == lines[i + 1..];
  }

  lemma ScannedAll(lx: Lexicon, lines: seq<string>, st: Scan)
    requires Scanned(lx, lines, |lines|, st)
    ensures st == ScanAll(lx, START, lines)
  {
    assert lines[|lines|..] == [];
  }

  lemma ComputedNext(items: seq<Item>, i: nat)
    requires i < |items|
    ensures Computed(items[..i + 1]) == Computed(items[..i]) + Counted(items[i])
  {
    assert items[..i + 1][..i] == items[..i];
  }

  method FindQty(lx: Lexicon, line: string) returns (qty: real)
    ensures qty == ParseQty(lx, line)
  {
    var v := Submatch(lx.qtyPrefix, line);
    if v.Some? {
      return v.value;
    }
    v := Submatch(lx.qtyTimes, line);
    if v.Some? {
      return v.value;
    }
    v := Submatch(lx.qtyInline, line);
    if v.Some? {
      return v.value;
    }
    return 0.0;
  }

  method FindDesc(lx: Lexicon, line: string) returns (desc: string)
    ensures desc == OwnDesc(lx, line)
  {
    desc := StripNumbers(lx, line);
    if desc != "" && MatchString(lx.junk, desc) {
      desc := "";
    }
  }

  // itemFromLine, with the line's own description and what parseQty reads.
  method BuildItem(own: string, q: real, amounts: seq<real>, pendingDesc: string) returns (it: Item)
    requires |amounts| > 0
    ensures it == MakeItem(own, if q == 0.0 then 1.0 else q, amounts, pendingDesc)
  {
    var qty := q;
    var unit := amounts[0];
    var lineTotal := amounts[|amounts| - 1];
    if qty == 0.0 {
      qty := 1.0;
    }
    if |amounts| == 1 {
      lineTotal := unit * qty;
    }
    var desc := own;
    if desc == "" {
      desc := pendingDesc;
    }
    if desc == "" {
      desc := UNLABELED;
    }
    it := Item(desc, qty, unit, lineTotal);
  }

  method Parse(lx: Lexicon, text: string) returns (r: Result)
    ensures r == ParseSpec(lx, text)
  {
    var lines := Split(text);
    var items: seq<Item>, estimated, foundTotal, pendingDesc, pendingPay := [], 0.0, false, "", false;
    ghost var st := START;
    ScannedNone(lx, lines);
    var i := 0;
    while i < |lines|
      invariant Scanned(lx, lines, i, st)
      invariant st == Scan(items, estimated, foundTotal, pendingDesc, pendingPay)
      decreases |lines| - i
    {
      ScannedNext(lx, lines, i, st);
      var line := TrimSpace(lines[i]);
      if line != "" {
        st := ScanLine(lx, st, line);
      }
      i := i + 1;
      if line == "" {
        continue;
      }
      if MatchString(lx.meta, line) {
        pendingDesc, pendingPay := "", false;
        continue;
      }
      var amounts := FindAmounts(lx, line);
      if MatchString(lx.pay, line) && |amounts| == 0 {
        pendingDesc, pendingPay := line, true;
        continue;
      }
      if |amounts| == 0 {
        if LooksLikeProduct(lx, line) {
          pendingDesc, pendingPay := ProductName(lx, line), false;
        }
        continue;
      }
      if MatchString(lx.total, line) || pendingPay {
        estimated, foundTotal, pendingDesc, pendingPay := Last(amounts), true, "", false;
        continue;
      }
      var qty := FindQty(lx, line);
      var own := FindDesc(lx, line);
      var item := BuildItem(own, qty, amounts, pendingDesc);
      items := items + [item];
      pendingDesc := "";
    }
    ScannedAll(lx, lines, st);

    var computed := 0.0;
    i := 0;
    while i < |items|
      invariant 0 <= i <= |items|
      invariant computed == Computed(items[..i])
    {
      ComputedNext(items, i);
      if items[i].lineTotal > 0.0 {
        computed := computed + items[i].lineTotal;
      } else {
        computed := computed + items[i].quantity * items[i].unitAmount;
      }
      i := i + 1;
    }
    assert items[..i] == items;
    if !foundTotal {
      estimated := computed;
    }
    r := Result(items, Round2(estimated), Round2(computed), foundTotal);
  }

  method Incomplete(r: Result) returns (b: bool)
    ensures b == IncompleteSpec(r)
  {
    if |r.items| == 0 {
      return true;
    }
    if !r.foundTotal {
      return true;
    }
    if Abs(r.estimatedTotal - r.computedItemsTotal) > LINE_DELTA {
      return true;
    }
    var i := 0;
    while i < |r.items|
      invariant 0 <= i <= |r.items|
      invariant forall k :: 0 <= k < i ==> !WeakItem(r.items[k])
    {
      var it := r.items[i];
      if it.description == "" || it.description == UNLABELED {
        assert WeakItem(r.items[i]);
        return true;
      }
      if InconsistentLine(it) {
        assert WeakItem(r.items[i]);
        return true;
      }
      i := i + 1;
    }
    return false;
  }
}
