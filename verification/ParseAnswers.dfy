/** What Parse and Incomplete answer, told from the lines of a text and the fields of a result. */
module ParseAnswers {
  import opened Text
  import opened Regex
  import opened Extract
  import opened CleanTheorems
  import opened Receipt
  import opened ExtractTheorems

  // Items.

  /** What an item says about the line it came from: the first amount is its unit amount, a single amount counts as
      often as the quantity says, of several the last is the line total; the description is the line's own, else the
      one that was pending, else the placeholder. */
  predicate ItemSays(l: Line, pending: string, it: Item) {
    && l.Money?
    && it.quantity == l.quantity && it.unitAmount == l.amounts[0]
    && it.lineTotal == (if |l.amounts| == 1 then l.quantity * l.amounts[0] else l.amounts[|l.amounts| - 1])
    && it.description == if l.own != "" then l.own else if pending != "" then pending else "unlabeled item"
  }

  lemma ItemAtSays(lines: seq<Line>, k: nat, it: Item)
    requires ItemAt(lines, k, it)
    ensures ItemSays(lines[k], DescBefore(lines, k), it)
  {
  }

  /** Every item of a parse says that of the line that gives it. */
  lemma ItemsSay(lx: Lexicon, text: string)
    requires Wordy(lx)
    ensures var lines, items := Lines(lx, text), ParseSpec(lx, text).items;
      var at := ItemLines(lines, |lines|);
      |items| == |at| && forall n :: 0 <= n < |at| ==>
        at[n] < |lines| && GivesItem(lines, at[n]) && ItemSays(lines[at[n]], DescBefore(lines, at[n]), items[n])
  {
    var lines, items := Lines(lx, text), ParseSpec(lx, text).items;
    ParseIs(lx, text);
    var at := ItemLines(lines, |lines|);
    forall n | 0 <= n < |at|
      ensures at[n] < |lines| && GivesItem(lines, at[n]) && ItemSays(lines[at[n]], DescBefore(lines, at[n]), items[n])
    {
      ItemAtSays(lines, at[n], items[n]);
    }
  }

  /** A line with amounts is a money line with these amounts, unless it is a meta line; its quantity is what the
      line says or one; its own description is what is left without numbers, unless that is junk. */
  lemma MoneyLineSays(lx: Lexicon, line: string)
    ensures var l, q, own := LineOf(lx, line), ParseQty(lx, line), StripNumbers(lx, line);
      && (l.Money? <==> !MatchString(lx.meta, line) && ParseAmounts(lx, line) != [])
      && (l.Money? ==>
            && l.amounts == ParseAmounts(lx, line) && l.saysTotal == MatchString(lx.total, line)
            && l.quantity == (if q == 0.0 then 1.0 else q)
            && l.own == if own != "" && MatchString(lx.junk, own) then "" else own)
  {
  }

  /** A line without an amount is passed over as a meta line, announces a payment, names a product if it has a letter,
      or says nothing. */
  lemma OtherLineSays(lx: Lexicon, line: string)
    ensures var l := LineOf(lx, line);
      && (l.Meta? <==> MatchString(lx.meta, line))
      && (!l.Meta? && ParseAmounts(lx, line) == [] ==>
            && (l.Pay? <==> MatchString(lx.pay, line)) && (l.Pay? ==> l.text == line)
            && (l.Product? <==> !l.Pay? && exists k :: 0 <= k < |line| && lx.letters(line[k]))
            && (l.Product? ==> l.name == ProductName(lx, line)))
  {
  }

  // Incomplete.

  /** A complete result, field by field: items, a total that was read, totals within five cents, and items with a
      description of their own whose quantity times unit amount is within five cents of the line total, where all
      three are positive. */
  predicate Complete(r: Result) {
    && |r.items| > 0 && r.foundTotal
    && -0.05 <= r.estimatedTotal - r.computedItemsTotal <= 0.05
    && forall k :: 0 <= k < |r.items| ==> var it := r.items[k];
         && it.description != "" && it.description != "unlabeled item"
         && (it.quantity > 0.0 && it.unitAmount > 0.0 && it.lineTotal > 0.0 ==>
               -0.05 <= it.quantity * it.unitAmount - it.lineTotal <= 0.05)
  }

  lemma WeakIff(it: Item)
    ensures WeakItem(it) <==>
      || it.description == "" || it.description == "unlabeled item"
      || (it.quantity > 0.0 && it.unitAmount > 0.0 && it.lineTotal > 0.0 &&
          !(-0.05 <= it.quantity * it.unitAmount - it.lineTotal <= 0.05))
  {
  }

  lemma IncompleteIff(r: Result)
    ensures IncompleteSpec(r) <==> !Complete(r)
  {
    forall k | 0 <= k < |r.items|
      ensures WeakItem(r.items[k]) <==> var it := r.items[k];
        || it.description == "" || it.description == "unlabeled item"
        || (it.quantity > 0.0 && it.unitAmount > 0.0 && it.lineTotal > 0.0 &&
            !(-0.05 <= it.quantity * it.unitAmount - it.lineTotal <= 0.05))
    {
      WeakIff(r.items[k]);
    }
  }

  // An item line that a complete result may have, after `pending`.
  predicate FineLine(l: Line, pending: string)
    requires l.Money?
  {
    && (if l.own != "" then l.own != "unlabeled item" else pending != "" && pending != "unlabeled item")
    && (|l.amounts| > 1 && l.amounts[0] > 0.0 && l.amounts[|l.amounts| - 1] > 0.0 ==>
          -0.05 <= l.quantity * l.amounts[0] - l.amounts[|l.amounts| - 1] <= 0.05)
  }

  lemma FineIff(l: Line, pending: string, it: Item)
    requires ItemSays(l, pending, it) && l.quantity > 0.0
    ensures FineLine(l, pending) <==> !WeakItem(it)
  {
    WeakIff(it);
  }

  lemma QuantityIsPositive(lx: Lexicon, text: string, k: nat)
    requires k < |Lines(lx, text)| && Lines(lx, text)[k].Money?
    ensures Lines(lx, text)[k].quantity > 0.0
  {
    LinesArePlausible(lx, Content(Split(text)));
  }

  lemma WeakItemsIff(lx: Lexicon, text: string, n: nat)
    requires Wordy(lx) && n < |ParseSpec(lx, text).items|
    ensures var lines := Lines(lx, text);
      var at := ItemLines(lines, |lines|);
      && n < |at| && at[n] < |lines| && lines[at[n]].Money?
      && (FineLine(lines[at[n]], DescBefore(lines, at[n])) <==> !WeakItem(ParseSpec(lx, text).items[n]))
  {
    var lines := Lines(lx, text);
    var at := ItemLines(lines, |lines|);
    ItemsSay(lx, text);
    assert ItemSays(lines[at[n]], DescBefore(lines, at[n]), ParseSpec(lx, text).items[n]);
    QuantityIsPositive(lx, text, at[n]);
    FineIff(lines[at[n]], DescBefore(lines, at[n]), ParseSpec(lx, text).items[n]);
  }

  /** When the parse of a text is complete, told from its lines: some line gives an item, some line gives the total,
      the two totals are within five cents, and every line that gives an item is fine. */
  lemma CompleteTextIff(lx: Lexicon, text: string)
    requires Wordy(lx)
    ensures var lines, r := Lines(lx, text), ParseSpec(lx, text);
      var at := ItemLines(lines, |lines|);
      !IncompleteSpec(r) <==>
        && (exists k :: 0 <= k < |lines| && GivesItem(lines, k))
        && (exists k :: 0 <= k < |lines| && GivesTotal(lines, k))
        && -0.05 <= r.estimatedTotal - r.computedItemsTotal <= 0.05
        && (forall n :: 0 <= n < |at| ==>
              at[n] < |lines| && lines[at[n]].Money? && FineLine(lines[at[n]], DescBefore(lines, at[n])))
  {
    var lines, r := Lines(lx, text), ParseSpec(lx, text);
    var at := ItemLines(lines, |lines|);
    ParseIs(lx, text);
    IncompleteIff(r);
    SomeItemIff(lines);
    forall n | 0 <= n < |r.items|
      ensures at[n] < |lines| && lines[at[n]].Money?
      ensures FineLine(lines[at[n]], DescBefore(lines, at[n])) <==> !WeakItem(r.items[n])
    {
      WeakItemsIff(lx, text, n);
    }
  }

  lemma SomeItemIff(lines: seq<Line>)
    ensures ItemLines(lines, |lines|) != [] <==> exists k :: 0 <= k < |lines| && GivesItem(lines, k)
  {
    var at := ItemLines(lines, |lines|);
    ItemLinesAre(lines, |lines|);
    if at != [] {
      assert at[0] in at;
      assert GivesItem(lines, at[0]);
    }
    if k :| 0 <= k < |lines| && GivesItem(lines, k) { assert k in at; }
  }

  /** So a text that names no total is escalated, and so is one without an item, */
  lemma NoTotalIsIncomplete(lx: Lexicon, text: string)
    requires Wordy(lx) && forall k :: 0 <= k < |Lines(lx, text)| ==> !GivesTotal(Lines(lx, text), k)
    ensures IncompleteSpec(ParseSpec(lx, text))
  {
    CompleteTextIff(lx, text);
  }

  lemma NoItemIsIncomplete(lx: Lexicon, text: string)
    requires Wordy(lx) && forall k :: 0 <= k < |Lines(lx, text)| ==> !GivesItem(Lines(lx, text), k)
    ensures IncompleteSpec(ParseSpec(lx, text))
  {
    CompleteTextIff(lx, text);
  }
}
