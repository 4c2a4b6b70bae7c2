/** A receipt as Parse sees it once the patterns have spoken: which of its lines give items, which set the
    total, and how far the items' own prices can be from it. */
module Receipt {
  import opened Extract

  type Amounts1 = s: seq<real> | |s| > 0 witness [0.0]

  // What a line is, whatever came before it; `own` is its own description, if any.
  datatype Line =
    | Meta
    | Pay(text: string)
    | Product(name: string)
    | Plain
    | Money(amounts: Amounts1, saysTotal: bool, quantity: real, own: string)

  function ItemOf(l: Line, pending: string): Item
    requires l.Money?
  {
    MakeItem(l.own, l.quantity, l.amounts, pending)
  }

  function Advance(st: Scan, l: Line): Scan {
    match l
    case Meta => st.(pendingDesc := "", pendingPay := false)
    case Pay(text) => st.(pendingDesc := text, pendingPay := true)
    case Product(name) => st.(pendingDesc := name, pendingPay := false)
    case Plain => st
    case Money(amounts, saysTotal, _, _) =>
      if saysTotal || st.pendingPay then Scan(st.items, Last(amounts), true, "", false)
      else st.(items := st.items + [ItemOf(l, st.pendingDesc)], pendingDesc := "")
  }

  function AdvanceAll(lines: seq<Line>): Scan {
    if lines == [] then START else Advance(AdvanceAll(lines[..|lines| - 1]), lines[|lines| - 1])
  }

  // The last line before k that is not plain announces a payment.
  predicate PayBefore(lines: seq<Line>, k: nat)
    requires k <= |lines|
  {
    k > 0 && (lines[k - 1].Pay? || (lines[k - 1].Plain? && PayBefore(lines, k - 1)))
  }

  // The description the lines before k leave for the next item: that of the last line that is not plain.
  function DescBefore(lines: seq<Line>, k: nat): string
    requires k <= |lines|
  {
    if k == 0 then ""
    else
      match lines[k - 1]
      case Plain => DescBefore(lines, k - 1)
      case Pay(text) => text
      case Product(name) => name
      case _ => ""
  }

  predicate GivesTotal(lines: seq<Line>, k: nat)
    requires k < |lines|
  {
    lines[k].Money? && (lines[k].saysTotal || PayBefore(lines, k))
  }

  predicate GivesItem(lines: seq<Line>, k: nat)
    requires k < |lines|
  {
    lines[k].Money? && !GivesTotal(lines, k)
  }

  // The positions before k of the lines that give items, in order.
  function ItemLines(lines: seq<Line>, k: nat): seq<nat>
    requires k <= |lines|
  {
    if k == 0 then [] else ItemLines(lines, k - 1) + if GivesItem(lines, k - 1) then [k - 1] else []
  }

  // The last total given before k, if any.
  function TotalBefore(lines: seq<Line>, k: nat): Option<real>
    requires k <= |lines|
  {
    if k == 0 then None
    else if GivesTotal(lines, k - 1) then Some(Last(lines[k - 1].amounts))
    else TotalBefore(lines, k - 1)
  }

  predicate ItemAt(lines: seq<Line>, k: nat, it: Item) {
    k < |lines| && GivesItem(lines, k) && it == ItemOf(lines[k], DescBefore(lines, k))
  }

  predicate ItemsAre(lines: seq<Line>, at: seq<nat>, items: seq<Item>) {
    |items| == |at| && forall n :: 0 <= n < |at| ==> ItemAt(lines, at[n], items[n])
  }

  predicate ScanIs(lines: seq<Line>, k: nat, st: Scan)
    requires k <= |lines|
  {
    && st.pendingPay == PayBefore(lines, k)
    && st.pendingDesc == DescBefore(lines, k)
    && (match TotalBefore(lines, k)
        case Some(v) => st.foundTotal && st.estimated == v
        case None => !st.foundTotal)
    && ItemsAre(lines, ItemLines(lines, k), st.items)
  }

  lemma ItemsSnoc(lines: seq<Line>, k: nat, items: seq<Item>)
    requires k < |lines| && GivesItem(lines, k) && ItemsAre(lines, ItemLines(lines, k), items)
    ensures ItemsAre(lines, ItemLines(lines, k + 1), items + [ItemOf(lines[k], DescBefore(lines, k))])
  {
    var it, at := ItemOf(lines[k], DescBefore(lines, k)), ItemLines(lines, k);
    assert ItemAt(lines, k, it);
    forall n | 0 <= n < |at + [k]| ensures ItemAt(lines, (at + [k])[n], (items + [it])[n]) {
      if n < |at| { assert ItemAt(lines, at[n], items[n]); }
    }
  }

  lemma AdvanceStepIs(lines: seq<Line>, k: nat, st: Scan)
    requires k < |lines| && ScanIs(lines, k, st)
    ensures ScanIs(lines, k + 1, Advance(st, lines[k]))
  {
    if GivesItem(lines, k) { ItemsSnoc(lines, k, st.items); }
  }

  lemma {:induction false} AdvancePrefixIs(lines: seq<Line>, k: nat)
    requires k <= |lines|
    ensures ScanIs(lines, k, AdvanceAll(lines[..k]))
  {
    if k > 0 {
      AdvancePrefixIs(lines, k - 1);
      assert lines[..k][..k - 1] == lines[..k - 1];
      AdvanceStepIs(lines, k - 1, AdvanceAll(lines[..k - 1]));
    }
  }

  lemma {:induction false} TotalGiven(lines: seq<Line>, k: nat)
    requires k <= |lines|
    ensures TotalBefore(lines, k).Some? <==> exists p :: 0 <= p < k && GivesTotal(lines, p)
  {
    if k > 0 { TotalGiven(lines, k - 1); }
  }

  /** The loop state after all lines, told from the lines alone. */
  lemma AdvanceIs(lines: seq<Line>)
    ensures ScanIs(lines, |lines|, AdvanceAll(lines))
    ensures TotalBefore(lines, |lines|).Some? <==> exists p :: 0 <= p < |lines| && GivesTotal(lines, p)
  {
    AdvancePrefixIs(lines, |lines|);
    assert lines[..|lines|] == lines;
    TotalGiven(lines, |lines|);
  }

  /** Every line with an amount gives exactly one item or one total: the lines listed as item lines are
      those that set no total, each once and in order. */
  lemma {:induction false} ItemLinesAre(lines: seq<Line>, k: nat)
    requires k <= |lines|
    ensures forall p: nat :: p < k && lines[p].Money? ==> (p in ItemLines(lines, k) <==> !GivesTotal(lines, p))
    ensures forall p: nat :: p in ItemLines(lines, k) ==> p < k && lines[p].Money?
    ensures forall m, n :: 0 <= m < n < |ItemLines(lines, k)| ==> ItemLines(lines, k)[m] < ItemLines(lines, k)[n]
  {
    if k > 0 {
      ItemLinesAre(lines, k - 1);
      var front := ItemLines(lines, k - 1);
      forall m | 0 <= m < |front| ensures front[m] < k - 1 { assert front[m] in front; }
    }
  }

  // How far the items' own prices may be from the total.

  predicate AllNatural(amounts: seq<real>) {
    forall k :: 0 <= k < |amounts| ==> amounts[k] >= 0.0
  }

  predicate PlausibleLine(l: Line) {
    l.Money? ==> AllNatural(l.amounts) && l.quantity > 0.0
  }

  predicate Plausible(it: Item) {
    it.quantity > 0.0 && it.unitAmount >= 0.0 && it.lineTotal >= 0.0
  }

  lemma ItemIsPlausible(l: Line, pending: string)
    requires l.Money? && PlausibleLine(l)
    ensures Plausible(ItemOf(l, pending))
  {
    assert l.amounts[0] >= 0.0;
    assert Last(l.amounts) >= 0.0;
  }

  // What an item costs by its own price; one priced at zero costs what its line says.
  function Priced(it: Item): real {
    if it.unitAmount > 0.0 then it.quantity * it.unitAmount else it.lineTotal
  }

  function PricedSum(items: seq<Item>): real {
    if items == [] then 0.0 else PricedSum(items[..|items| - 1]) + Priced(items[|items| - 1])
  }

  lemma ItemBound(it: Item)
    requires Plausible(it) && !InconsistentLine(it)
    ensures Abs(Priced(it) - Counted(it)) <= LINE_DELTA
  {
  }

  lemma {:induction false} ItemsBound(items: seq<Item>)
    requires forall k :: 0 <= k < |items| ==> Plausible(items[k]) && !InconsistentLine(items[k])
    ensures Abs(PricedSum(items) - Computed(items)) <= LINE_DELTA * |items| as real
  {
    if items != [] {
      ItemBound(items[|items| - 1]);
      ItemsBound(items[..|items| - 1]);
    }
  }

  lemma Round2Near(v: real)
    ensures Abs(Round2(v) - v) <= 0.005
  {
  }

  lemma ItemsArePlausible(lines: seq<Line>, at: seq<nat>, items: seq<Item>)
    requires ItemsAre(lines, at, items) && forall k :: 0 <= k < |lines| ==> PlausibleLine(lines[k])
    ensures forall k :: 0 <= k < |items| ==> Plausible(items[k])
  {
    forall k | 0 <= k < |items| ensures Plausible(items[k]) {
      assert ItemAt(lines, at[k], items[k]);
      ItemIsPlausible(lines[at[k]], DescBefore(lines, at[k]));
    }
  }

  lemma TotalBound(priced: real, computed: real, estimated: real, n: nat)
    requires Abs(priced - computed) <= LINE_DELTA * n as real && Abs(estimated - Round2(computed)) <= LINE_DELTA
    ensures Abs(priced - estimated) <= LINE_DELTA * (n + 1) as real + 0.005
  {
    Round2Near(computed);
  }

  lemma FloorIs(x: real, c: int)
    ensures x.Floor == c <==> c as real <= x < c as real + 1.0
  {
  }

  lemma Round2Up(v: real, cents: int)
    requires v >= 0.0
    ensures Round2(v) == cents as real / 100.0 <==> v * 100.0 - 0.5 < cents as real <= v * 100.0 + 0.5
  {
    FloorIs(v * 100.0 + 0.5, cents);
    var c := (v * 100.0 + 0.5).Floor;
    assert Round2(v) == c as real / 100.0;
    assert c as real / 100.0 == cents as real / 100.0 <==> c == cents;
  }

  lemma Round2Odd(v: real)
    requires v < 0.0
    ensures Round2(v) == -Round2(-v)
  {
  }

  /** Rounding gives the nearest number of cents, the one farther from zero when two are equally near. */
  lemma Round2IsNearest(v: real, cents: int)
    ensures Round2(v) == cents as real / 100.0 <==>
      if v >= 0.0 then v * 100.0 - 0.5 < cents as real <= v * 100.0 + 0.5
      else v * 100.0 - 0.5 <= cents as real < v * 100.0 + 0.5
  {
    if v >= 0.0 {
      Round2Up(v, cents);
    } else {
      Round2Odd(v);
      Round2Up(-v, -cents);
      assert (-cents) as real / 100.0 == -(cents as real / 100.0);
    }
  }

  lemma CompleteBound(r: Result)
    requires r.computedItemsTotal == Round2(Computed(r.items))
    requires forall k :: 0 <= k < |r.items| ==> Plausible(r.items[k])
    requires !IncompleteSpec(r)
    ensures Abs(PricedSum(r.items) - r.estimatedTotal) <= LINE_DELTA * (|r.items| + 1) as real + 0.005
  {
    forall k | 0 <= k < |r.items| ensures Plausible(r.items[k]) && !InconsistentLine(r.items[k]) {
      assert !WeakItem(r.items[k]);
    }
    ItemsBound(r.items);
    TotalBound(PricedSum(r.items), Computed(r.items), r.estimatedTotal, |r.items|);
  }

  function TimesSum(items: seq<Item>): real {
    if items == [] then 0.0
    else TimesSum(items[..|items| - 1]) + items[|items| - 1].quantity * items[|items| - 1].unitAmount
  }

  lemma {:induction false} PricedIsTimes(items: seq<Item>)
    requires forall k :: 0 <= k < |items| ==> items[k].unitAmount > 0.0
    ensures PricedSum(items) == TimesSum(items)
  {
    if items != [] { PricedIsTimes(items[..|items| - 1]); }
  }

  // What the line says is within five cents of quantity times unit amount.
  predicate TimesAgrees(it: Item) {
    Abs(it.quantity * it.unitAmount - Counted(it)) <= LINE_DELTA
  }

  predicate PricedOrSmall(it: Item) {
    it.unitAmount > 0.0 || it.lineTotal <= LINE_DELTA
  }

  // An item that is not called inconsistent agrees exactly if it is not priced at zero with more on its line.
  lemma TimesAgreesIff(it: Item)
    requires Plausible(it) && !InconsistentLine(it)
    ensures TimesAgrees(it) <==> PricedOrSmall(it)
  {
    if it.unitAmount == 0.0 { assert it.quantity * it.unitAmount == 0.0; }
  }

  // What the items priced at zero cost by their lines.
  function ZeroUnitSum(items: seq<Item>): real {
    if items == [] then 0.0
    else
      var last := items[|items| - 1];
      ZeroUnitSum(items[..|items| - 1]) + if last.unitAmount == 0.0 then last.lineTotal else 0.0
  }

  /** The sum of quantity times unit amount falls short of what the items cost by exactly that. */
  lemma {:induction false} PricedGap(items: seq<Item>)
    requires forall k :: 0 <= k < |items| ==> Plausible(items[k])
    ensures PricedSum(items) - TimesSum(items) == ZeroUnitSum(items)
  {
    if items != [] { PricedGap(items[..|items| - 1]); }
  }
}
