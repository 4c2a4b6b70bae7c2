/** The words that make a line a meta, payment or total line are found where they stand. */
module Keywords {
  import opened Text
  import opened Regex
  import opened RegexTheorems
  import opened Extract
  import opened Receipt
  import opened ExtractTheorems
  import opened Preference
  import opened Quantities

  lemma WordIn(w: string, s: string, m: Match)
    requires w != "" && SpelledAt(w, s, m.pos)
    ensures m.(pos := m.pos + |w|) in Run(Word(w), s, m)
  {
    WordRun(w, s, m);
  }

  lemma ChrIn(cls: Class, s: string, m: Match)
    requires m.pos < |s| && InClass(cls, s[m.pos])
    ensures m.(pos := m.pos + 1) in Run(Chr(cls), s, m)
  {
    ChrFirst(cls, s, m);
  }

  lemma EdgeIn(s: string, m: Match)
    requires m.pos <= |s| && WordAt(s, m.pos - 1) != WordAt(s, m.pos)
    ensures m in Run(Edge, s, m)
  {
  }

  lemma {:induction false} AnyIn(rs: seq<Re>, k: nat, s: string, m: Match, m': Match)
    requires k < |rs| && m.pos <= |s| && m' in Run(rs[k], s, m)
    ensures m' in Run(AnyOf(rs), s, m)
  {
    if |rs| > 1 && k > 0 { AnyIn(rs[1..], k - 1, s, m, m'); }
  }

  lemma FoundHere(r: Re, s: string, b: nat, m': Match)
    requires b <= |s| && m' in Run(r, s, Match(b, b, b))
    ensures MatchString(r, s)
  {
    FindAt(r, s, 0, b);
  }

  // `word` is w, in capitals or not.
  predicate IsSpelled(w: string, word: string) {
    |word| == |w| && SpelledAt(w, word, 0)
  }

  lemma SpelledWithin(w: string, front: string, word: string, rest: string)
    requires IsSpelled(w, word)
    ensures SpelledAt(w, front + word + rest, |front|)
  {
    var s := front + word + rest;
    forall k | 0 <= k < |w| ensures Fold(s[|front| + k]) == Fold(w[k]) {
      assert s[|front| + k] == word[k] && Fold(word[0 + k]) == Fold(w[k]);
    }
  }

  predicate EndsWord(rest: string) {
    rest != "" ==> !IsWord(rest[0])
  }

  predicate BeginsWord(front: string) {
    front != "" ==> !IsWord(front[|front| - 1])
  }

  lemma LetterIsWord(c: char)
    requires 'a' <= Fold(c) <= 'z' && Fold(c) != 's' && Fold(c) != 'k'
    ensures IsWord(c)
  {
  }

  // The edge after a word that ends in a letter.
  lemma EdgeAtEnd(front: string, word: string, rest: string)
    requires word != "" && IsWord(word[|word| - 1]) && EndsWord(rest)
    ensures var s, e := front + word + rest, |front| + |word|; WordAt(s, e - 1) && !WordAt(s, e)
  {
    var s, e := front + word + rest, |front| + |word|;
    assert s[e - 1] == word[|word| - 1];
    if rest != "" { assert s[e] == rest[0]; }
  }

  lemma EdgeAtStart(front: string, word: string, rest: string)
    requires word != "" && IsWord(word[0]) && BeginsWord(front)
    ensures var s, b := front + word + rest, |front|; !WordAt(s, b - 1) && WordAt(s, b)
  {
    var s, b := front + word + rest, |front|;
    assert s[b] == word[0];
    if front != "" { assert s[b - 1] == front[|front| - 1]; }
  }

  // Meta lines.

  const META_NAMES := ["cnpj", "cpf", "cnpj/cpf", "ie", "im"]

  predicate IsInscricao(word: string) {
    && |word| == 9 && IsSpelled("inscri", word[..6])
    && (Fold(word[6]) == 'c' || Fold(word[6]) == 'ç') && (Fold(word[7]) == 'a' || Fold(word[7]) == 'ã')
    && Fold(word[8]) == 'o'
  }

  predicate IsMetaWord(word: string) {
    (exists k :: 0 <= k < |META_NAMES| && IsSpelled(META_NAMES[k], word)) || IsInscricao(word)
  }

  lemma MetaNameIn(k: nat, s: string)
    requires k < |META_NAMES| && SpelledAt(META_NAMES[k], s, 0)
    ensures Match(|META_NAMES[k]|, 0, 0) in Run(AnyOf(META_WORDS), s, Match(0, 0, 0))
  {
    var m := Match(0, 0, 0);
    WordIn(META_NAMES[k], s, m);
    assert META_WORDS[k] == Word(META_NAMES[k]);
    AnyIn(META_WORDS, k, s, m, Match(|META_NAMES[k]|, 0, 0));
  }

  lemma InscricaoIn(word: string, rest: string)
    requires IsInscricao(word)
    ensures Match(9, 0, 0) in Run(AnyOf(META_WORDS), word + rest, Match(0, 0, 0))
  {
    var s, m0, m6, m7, m8 := word + rest, Match(0, 0, 0), Match(6, 0, 0), Match(7, 0, 0), Match(8, 0, 0);
    SpelledWithin("inscri", "", word[..6], word[6..] + rest);
    assert "" + word[..6] + (word[6..] + rest) == s;
    WordIn("inscri", s, m0);
    assert s[6] == word[6] && s[7] == word[7] && s[8] == word[8];
    assert "cç"[0] == 'c' && "cç"[1] == 'ç' && "aã"[0] == 'a' && "aã"[1] == 'ã';
    assert InClass(OneOf("cç"), s[6]) && InClass(OneOf("aã"), s[7]);
    ChrIn(OneOf("cç"), s, m6);
    ChrIn(OneOf("aã"), s, m7);
    WordRun("o", s, m8);
    assert SpelledAt("o", s, 8);
    CatIntro(Chr(OneOf("aã")), Word("o"), s, m7, m8, Match(9, 0, 0));
    CatIntro(Chr(OneOf("cç")), Cat(Chr(OneOf("aã")), Word("o")), s, m6, m7, Match(9, 0, 0));
    CatIntro(Word("inscri"), Cat(Chr(OneOf("cç")), Cat(Chr(OneOf("aã")), Word("o"))), s, m0, m6, Match(9, 0, 0));
    assert META_WORDS[5] == INSCRICAO;
    AnyIn(META_WORDS, 5, s, m0, Match(9, 0, 0));
  }

  lemma MetaEnds(word: string)
    requires IsMetaWord(word)
    ensures word != "" && IsWord(word[|word| - 1])
  {
    if k :| 0 <= k < |META_NAMES| && IsSpelled(META_NAMES[k], word) {
      var w := META_NAMES[k];
      assert Fold(word[0 + (|w| - 1)]) == Fold(w[|w| - 1]);
      LetterIsWord(word[|w| - 1]);
    } else {
      LetterIsWord(word[8]);
    }
  }

  lemma MetaWordIn(word: string, rest: string)
    requires IsMetaWord(word)
    ensures Match(|word|, 0, 0) in Run(AnyOf(META_WORDS), word + rest, Match(0, 0, 0))
  {
    if k :| 0 <= k < |META_NAMES| && IsSpelled(META_NAMES[k], word) {
      SpelledWithin(META_NAMES[k], "", word, rest);
      assert "" + word + rest == word + rest;
      MetaNameIn(k, word + rest);
    } else {
      InscricaoIn(word, rest);
    }
  }

  // A pattern that begins with ^ and ends with an edge.
  lemma BolEdgeIn(r: Re, s: string, m': Match)
    requires m'.pos <= |s| && m' in Run(r, s, Match(0, 0, 0)) && WordAt(s, m'.pos - 1) != WordAt(s, m'.pos)
    ensures MatchString(Cat(Bol, Cat(r, Edge)), s)
  {
    var m := Match(0, 0, 0);
    EdgeIn(s, m');
    CatIntro(r, Edge, s, m, m', m');
    CatIntro(Bol, Cat(r, Edge), s, m, m, m');
    FoundHere(Cat(Bol, Cat(r, Edge)), s, 0, m');
  }

  lemma MetaEdge(word: string, rest: string)
    requires IsMetaWord(word) && EndsWord(rest)
    ensures WordAt(word + rest, |word| - 1) && !WordAt(word + rest, |word|)
  {
    MetaEnds(word);
    EdgeAtEnd("", word, rest);
    assert "" + word + rest == word + rest;
  }

  lemma MetaMatches(word: string, rest: string)
    requires IsMetaWord(word) && EndsWord(rest)
    ensures MatchString(META_LINE, word + rest)
  {
    MetaEdge(word, rest);
    MetaWordIn(word, rest);
    BolEdgeIn(AnyOf(META_WORDS), word + rest, Match(|word|, 0, 0));
  }

  lemma MetaLineIs(lx: Lexicon, line: string)
    ensures MatchString(lx.meta, line) ==> LineOf(lx, line) == Meta
  {
  }

  /** CNPJ, CPF, CNPJ/CPF, IE, IM or inscrição, with or without its accents, at the start of a line makes it a meta
      line, whatever follows the word. */
  lemma MetaFound(letters: Letters, word: string, rest: string)
    requires IsMetaWord(word) && EndsWord(rest)
    ensures LineOf(Patterns(letters), word + rest) == Meta
  {
    MetaMatches(word, rest);
    MetaLineIs(Patterns(letters), word + rest);
  }

  // Payment lines.

  predicate IsCartao(word: string) {
    |word| == 6 && IsSpelled("cart", word[..4]) && (Fold(word[4]) == 'a' || Fold(word[4]) == 'ã') &&
        Fold(word[5]) == 'o'
  }

  lemma CartaoIn(front: string, word: string, rest: string)
    requires IsCartao(word)
    ensures var s, b := front + word + rest, |front|; Match(b + 6, b, b) in Run(PAY_LINE, s, Match(b, b, b))
  {
    var s, b := front + word + rest, |front|;
    var m, m4, m5 := Match(b, b, b), Match(b + 4, b, b), Match(b + 5, b, b);
    SpelledWithin("cart", front, word[..4], word[4..] + rest);
    assert front + word[..4] + (word[4..] + rest) == s;
    WordIn("cart", s, m);
    assert s[b + 4] == word[4] && s[b + 5] == word[5];
    assert "aã"[0] == 'a' && "aã"[1] == 'ã';
    assert InClass(OneOf("aã"), s[b + 4]);
    ChrIn(OneOf("aã"), s, m4);
    WordRun("o", s, m5);
    assert SpelledAt("o", s, b + 5);
    CatIntro(Chr(OneOf("aã")), Word("o"), s, m4, m5, Match(b + 6, b, b));
    CatIntro(Word("cart"), Cat(Chr(OneOf("aã")), Word("o")), s, m, m4, Match(b + 6, b, b));
    assert PAY_WORDS[2] == Cat(Word("cart"), Cat(Chr(OneOf("aã")), Word("o")));
    AnyIn(PAY_WORDS, 2, s, m, Match(b + 6, b, b));
  }

  lemma PixIn(front: string, word: string, rest: string)
    requires IsSpelled("pix", word) && BeginsWord(front) && EndsWord(rest)
    ensures var s, b := front + word + rest, |front|; Match(b + 3, b, b) in Run(PAY_LINE, s, Match(b, b, b))
  {
    var s, b := front + word + rest, |front|;
    var m, m' := Match(b, b, b), Match(b + 3, b, b);
    SpelledWithin("pix", front, word, rest);
    WordIn("pix", s, m);
    assert Fold(word[0 + 0]) == Fold("pix"[0]) && Fold(word[0 + 2]) == Fold("pix"[2]);
    LetterIsWord(word[0]);
    LetterIsWord(word[2]);
    EdgeAtStart(front, word, rest);
    EdgeAtEnd(front, word, rest);
    EdgeIn(s, m);
    EdgeIn(s, m');
    CatIntro(Word("pix"), Edge, s, m, m', m');
    CatIntro(Edge, Cat(Word("pix"), Edge), s, m, m, m');
    assert PAY_WORDS[4] == Cat(Edge, Cat(Word("pix"), Edge));
    AnyIn(PAY_WORDS, 4, s, m, m');
  }

  lemma ListedAt(rs: seq<Re>, k: nat, w: string, s: string, m: Match)
    requires w != "" && k < |rs| && rs[k] == Word(w) && SpelledAt(w, s, m.pos)
    ensures m.(pos := m.pos + |w|) in Run(AnyOf(rs), s, m)
  {
    var m' := m.(pos := m.pos + |w|);
    assert m' in Run(rs[k], s, m) by { WordIn(w, s, m); }
    AnyIn(rs, k, s, m, m');
  }

  lemma ListedFound(rs: seq<Re>, k: nat, w: string, s: string, b: nat)
    requires w != "" && k < |rs| && rs[k] == Word(w) && SpelledAt(w, s, b)
    ensures MatchString(AnyOf(rs), s)
  {
    ListedAt(rs, k, w, s, Match(b, b, b));
    FoundHere(AnyOf(rs), s, b, Match(b + |w|, b, b));
  }

  lemma PlainPayFound(w: string, s: string, b: nat)
    requires (w == "pagamento" || w == "dinheiro") && SpelledAt(w, s, b)
    ensures MatchString(PAY_LINE, s)
  {
    assert PAY_WORDS[1] == Word("pagamento") && PAY_WORDS[3] == Word("dinheiro");
    ListedFound(PAY_WORDS, if w == "pagamento" then 1 else 3, w, s, b);
  }

  // A word that announces a payment; pix only where it stands alone.
  predicate IsPayWord(word: string, front: string, rest: string) {
    || IsSpelled("pagamento", word) || IsSpelled("dinheiro", word) || IsCartao(word)
    || (IsSpelled("pix", word) && BeginsWord(front) && EndsWord(rest))
  }

  lemma PayMatches(front: string, word: string, rest: string)
    requires IsPayWord(word, front, rest)
    ensures MatchString(PAY_LINE, front + word + rest)
  {
    var s, b := front + word + rest, |front|;
    if IsSpelled("pagamento", word) {
      SpelledWithin("pagamento", front, word, rest);
      PlainPayFound("pagamento", s, b);
    } else if IsSpelled("dinheiro", word) {
      SpelledWithin("dinheiro", front, word, rest);
      PlainPayFound("dinheiro", s, b);
    } else {
      if IsCartao(word) { CartaoIn(front, word, rest); } else { PixIn(front, word, rest); }
      FoundHere(PAY_LINE, s, b, Match(b + |word|, b, b));
    }
  }

  lemma PayLineIs(lx: Lexicon, line: string)
    ensures MatchString(lx.pay, line) && !MatchString(lx.meta, line) && ParseAmounts(lx, line) == [] ==>
        LineOf(lx, line) == Pay(line)
  {
  }

  /** A payment word anywhere in a line is found: a line with one that is no meta line announces a payment if it has no
      amount. */
  lemma PayFound(letters: Letters, front: string, word: string, rest: string)
    requires IsPayWord(word, front, rest)
    ensures var lx, line := Patterns(letters), front + word + rest;
      && MatchString(lx.pay, line)
      && (!MatchString(lx.meta, line) && ParseAmounts(lx, line) == [] ==> LineOf(lx, line) == Pay(line))
  {
    PayMatches(front, word, rest);
    PayLineIs(Patterns(letters), front + word + rest);
  }

  // Total lines.

  lemma {:induction false} SpacesIn(s: string, m: Match, e: nat)
    requires m.pos <= e <= |s| && forall k :: m.pos <= k < e ==> IsReSpace(s[k])
    ensures m.(pos := e) in Run(Star(S), s, m)
    decreases e - m.pos
  {
    if m.pos == e {
      RunStar(S, s, m);
    } else {
      ChrIn(Space, s, m);
      SpacesIn(s, m.(pos := m.pos + 1), e);
      StarIntro(S, s, m, m.(pos := m.pos + 1), m.(pos := e));
    }
  }

  lemma SpacedWordIn(w: string, s: string, m: Match, j: nat)
    requires w != "" && SpelledAt(w, s, j) && m.pos <= j && forall k :: m.pos <= k < j ==> IsReSpace(s[k])
    ensures m.(pos := j + |w|) in Run(Cat(Star(S), Word(w)), s, m)
  {
    var m1, m' := m.(pos := j), m.(pos := j + |w|);
    assert m' in Run(Word(w), s, m1) by { WordIn(w, s, m1); }
    SpacesIn(s, m, j);
    CatIntro(Star(S), Word(w), s, m, m1, m');
  }

  lemma TwoAt(u: string, w: string, s: string, m: Match, j: nat)
    requires u != "" && w != "" && SpelledAt(u, s, m.pos) && SpelledAt(w, s, j)
    requires m.pos + |u| <= j && forall k :: m.pos + |u| <= k < j ==> IsReSpace(s[k])
    ensures m.(pos := j + |w|) in Run(Cat(Word(u), Cat(Star(S), Word(w))), s, m)
  {
    var m1, m' := m.(pos := m.pos + |u|), m.(pos := j + |w|);
    assert m1 in Run(Word(u), s, m) by { WordIn(u, s, m); }
    assert m' in Run(Cat(Star(S), Word(w)), s, m1) by { SpacedWordIn(w, s, m1, j); }
    CatIntro(Word(u), Cat(Star(S), Word(w)), s, m, m1, m');
  }

  lemma TwoLie(u: string, w: string, front: string, first: string, gap: string, second: string, rest: string)
    requires IsSpelled(u, first) && IsSpelled(w, second)
    requires AllSpace(gap)
    ensures var s, b := front + (first + gap + second) + rest, |front|;
      && SpelledAt(u, s, b) && SpelledAt(w, s, b + |u| + |gap|)
      && forall k :: b + |u| <= k < b + |u| + |gap| ==> IsReSpace(s[k])
  {
    var s, b := front + (first + gap + second) + rest, |front|;
    SpelledWithin(u, front, first, gap + second + rest);
    assert front + first + (gap + second + rest) == s;
    SpelledWithin(w, front + first + gap, second, rest);
    assert front + first + gap + second + rest == s;
    forall k | b + |u| <= k < b + |u| + |gap| ensures IsReSpace(s[k]) { assert s[k] == gap[k - b - |u|]; }
  }

  // Two words with nothing but spaces between them.
  lemma TwoWordsIn(u: string, w: string, front: string, first: string, gap: string, second: string, rest: string)
    requires u != "" && w != "" && IsSpelled(u, first) && IsSpelled(w, second) && AllSpace(gap)
    ensures var s, b := front + (first + gap + second) + rest, |front|;
      Match(b + |u| + |gap| + |w|, b, b) in Run(Cat(Word(u), Cat(Star(S), Word(w))), s, Match(b, b, b))
  {
    var s, b := front + (first + gap + second) + rest, |front|;
    TwoLie(u, w, front, first, gap, second, rest);
    TwoAt(u, w, s, Match(b, b, b), b + |u| + |gap|);
  }

  // What names a total, from the start of its first word to the end of its last.
  datatype TotalName = Total(word: string) | ValorTotal(first: string, gap: string, second: string)
    | AmountDue(first: string, gap: string, second: string)

  predicate NamesTotal(n: TotalName) {
    match n
    case Total(word) => IsSpelled("total", word)
    case ValorTotal(first, gap, second) =>
      IsSpelled("valor", first) && AllSpace(gap) && IsSpelled("total", second)
    case AmountDue(first, gap, second) =>
      IsSpelled("amount", first) && AllSpace(gap) && IsSpelled("due", second)
  }

  function TotalText(n: TotalName): string {
    match n
    case Total(word) => word
    case ValorTotal(first, gap, second) => first + gap + second
    case AmountDue(first, gap, second) => first + gap + second
  }

  lemma ValorTotalIn(front: string, n: TotalName, rest: string)
    requires NamesTotal(n) && n.ValorTotal?
    ensures var s, b, t := front + TotalText(n) + rest, |front|, TotalText(n);
      Match(b + |t|, b, b) in Run(AnyOf(TOTAL_WORDS), s, Match(b, b, b))
  {
    var s, b := front + TotalText(n) + rest, |front|;
    TwoWordsIn("valor", "total", front, n.first, n.gap, n.second, rest);
    assert TOTAL_WORDS[1] == Cat(Word("valor"), Cat(Star(S), Word("total")));
    AnyIn(TOTAL_WORDS, 1, s, Match(b, b, b), Match(b + |TotalText(n)|, b, b));
  }

  lemma AmountDueIn(front: string, n: TotalName, rest: string)
    requires NamesTotal(n) && n.AmountDue?
    ensures var s, b, t := front + TotalText(n) + rest, |front|, TotalText(n);
      Match(b + |t|, b, b) in Run(AnyOf(TOTAL_WORDS), s, Match(b, b, b))
  {
    var s, b := front + TotalText(n) + rest, |front|;
    TwoWordsIn("amount", "due", front, n.first, n.gap, n.second, rest);
    assert TOTAL_WORDS[3] == Cat(Word("amount"), Cat(Star(S), Word("due")));
    AnyIn(TOTAL_WORDS, 3, s, Match(b, b, b), Match(b + |TotalText(n)|, b, b));
  }

  lemma TotalNameIn(front: string, n: TotalName, rest: string)
    requires NamesTotal(n)
    ensures var s, b, t := front + TotalText(n) + rest, |front|, TotalText(n);
      Match(b + |t|, b, b) in Run(AnyOf(TOTAL_WORDS), s, Match(b, b, b))
  {
    match n
    case Total(word) =>
      assert TOTAL_WORDS[0] == Word("total");
      SpelledWithin("total", front, word, rest);
      ListedAt(TOTAL_WORDS, 0, "total", front + word + rest, Match(|front|, |front|, |front|));
    case ValorTotal(_, _, _) => ValorTotalIn(front, n, rest);
    case AmountDue(_, _, _) => AmountDueIn(front, n, rest);
  }

  lemma TotalLetters(n: TotalName)
    requires NamesTotal(n)
    ensures var t := TotalText(n); t != "" && IsWord(t[0]) && IsWord(t[|t| - 1])
  {
    var t := TotalText(n);
    var first := if n.Total? then n.word else n.first;
    var last := if n.Total? then n.word else n.second;
    var u := if n.Total? then "total" else if n.ValorTotal? then "valor" else "amount";
    var w := if n.AmountDue? then "due" else "total";
    assert t[0] == first[0] && t[|t| - 1] == last[|last| - 1];
    assert Fold(first[0 + 0]) == Fold(u[0]) && Fold(last[0 + (|w| - 1)]) == Fold(w[|w| - 1]);
    LetterIsWord(first[0]);
    LetterIsWord(last[|last| - 1]);
  }

  // A pattern between two edges.
  lemma EdgesIn(r: Re, s: string, b: nat, m': Match)
    requires b <= m'.pos <= |s| && m' in Run(r, s, Match(b, b, b))
    requires WordAt(s, b - 1) != WordAt(s, b) && WordAt(s, m'.pos - 1) != WordAt(s, m'.pos)
    ensures MatchString(Cat(Edge, Cat(r, Edge)), s)
  {
    var m := Match(b, b, b);
    EdgeIn(s, m);
    EdgeIn(s, m');
    CatIntro(r, Edge, s, m, m', m');
    CatIntro(Edge, Cat(r, Edge), s, m, m, m');
    FoundHere(Cat(Edge, Cat(r, Edge)), s, b, m');
  }

  lemma TotalMatches(front: string, n: TotalName, rest: string)
    requires NamesTotal(n) && BeginsWord(front) && EndsWord(rest)
    ensures MatchString(TOTAL_LINE, front + TotalText(n) + rest)
  {
    var s, b, t := front + TotalText(n) + rest, |front|, TotalText(n);
    var m' := Match(b + |t|, b, b);
    TotalNameIn(front, n, rest);
    assert WordAt(s, b - 1) != WordAt(s, b) && WordAt(s, b + |t| - 1) != WordAt(s, b + |t|) by {
      TotalLetters(n);
      EdgeAtStart(front, t, rest);
      EdgeAtEnd(front, t, rest);
    }
    EdgesIn(AnyOf(TOTAL_WORDS), s, b, m');
  }

  lemma TotalLineIs(lx: Lexicon, line: string)
    ensures MatchString(lx.total, line) && LineOf(lx, line).Money? ==> LineOf(lx, line).saysTotal
  {
  }

  /** total, valor total and amount due, standing alone anywhere in a line, are found: a line with one that has amounts
      and is no meta line sets the total. */
  lemma TotalFound(letters: Letters, front: string, n: TotalName, rest: string)
    requires NamesTotal(n) && BeginsWord(front) && EndsWord(rest)
    ensures var lx, line := Patterns(letters), front + TotalText(n) + rest;
      MatchString(lx.total, line) && (LineOf(lx, line).Money? ==> LineOf(lx, line).saysTotal)
  {
    TotalMatches(front, n, rest);
    TotalLineIs(Patterns(letters), front + TotalText(n) + rest);
  }
}
