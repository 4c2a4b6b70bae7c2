/** What the stages keep: an extract is always the parse of its text, a done row is always coherent, and the
    cache only ever repeats what a fresh run would say. */
module InvoiceTheorems {
  import opened Extract
  import opened Jev
  import opened Invoice
  import opened ExplainTheorems
  import Cache

  // What the judge may answer about a text and its extract. "Any answers" is the relation that always holds.
  type Verdicts = (string, Result, Answers) -> bool

  // The judgment is one the judge may give on this text and extract.
  ghost predicate JudgedOn(says: Verdicts, text: string, x: Result, v: Judgment) {
    exists a: Answers :: says(text, x, a) && v == Compose(x, a)
  }

  // Equal but for FoundTotal.
  predicate SameExtract(a: Result, b: Result) {
    a.items == b.items && a.estimatedTotal == b.estimatedTotal && a.computedItemsTotal == b.computedItemsTotal
  }

  ghost predicate JudgedLike(says: Verdicts, text: string, x: Result, v: Judgment) {
    exists y: Result :: SameExtract(x, y) && JudgedOn(says, text, y, v)
  }

  function ExtractOf(r: Row): Result {
    Result(r.items, r.estimatedTotal, r.computedItemsTotal, false)
  }

  /** The verdict of the row was given on the row's own text and an extract with the row's items and totals. */
  ghost predicate Coherent(says: Verdicts, r: Row) {
    JudgedLike(says, r.ocrText, ExtractOf(r), r.verdict)
  }

  /** So a done row keeps the verdict's promises for its own totals. */
  lemma CoherentPromises(says: Verdicts, r: Row)
    requires Coherent(says, r)
    ensures r.verdict.itemsConfirmed == !r.verdict.needsReview
    ensures r.verdict.itemsConfirmed ==> Abs(r.estimatedTotal - r.computedItemsTotal) <= TOTAL_DELTA
    ensures Composed(r.verdict, r.estimatedTotal, r.computedItemsTotal)
  {
    var x: Result :| SameExtract(ExtractOf(r), x) && JudgedOn(says, r.ocrText, x, r.verdict);
    var a: Answers :| says(r.ocrText, x, a) && r.verdict == Compose(x, a);
    VerdictPromises(x, a);
  }

  predicate UnassistedEntry(e: Cache.Entry) {
    !e.assistUsed && e.assistNotes == "" && e.assistModel == ""
  }

  /** A cache entry under `text` holds a judgment of its extract, and where the parse of the text is complete
      that extract is the parse, untouched by the assistant, and the judgment is of exactly that. */
  ghost predicate EntryOk(cfg: Config, says: Verdicts, text: string, e: Cache.Entry) {
    var x := ParseSpec(cfg.lx, text);
    && JudgedLike(says, text, e.parsed, e.judgment)
    && (!IncompleteSpec(x) ==> e.parsed == x && UnassistedEntry(e) && JudgedOn(says, text, x, e.judgment))
  }

  ghost predicate ShelfOk(cfg: Config, says: Verdicts, shelf: Cache.Shelf) {
    forall t :: t in shelf.entries ==> EntryOk(cfg, says, t, shelf.entries[t])
  }

  // The assistant has not been asked.
  predicate Unassisted(r: Row) {
    !r.assistUsed && r.assistNotes == "" && r.assistModel == ""
  }

  /** A job after StageOCR: its extract is the parse of its text, and a hit is a good entry for that text. */
  ghost predicate JobOk(cfg: Config, says: Verdicts, j: Job) {
    && j.parsed == ParseSpec(cfg.lx, j.text)
    && j.confidence == ExtractConfidence(j.text, j.parsed)
    && j.row.ocrText == j.text
    && Unassisted(j.row)
    && (j.hit.Some? ==> EntryOk(cfg, says, j.text, j.hit.value))
  }

  // The judge's answers in a run of StageJev are answers it may give.
  ghost predicate Honest(cfg: Config, says: Verdicts, j: Job, openRouter: Engine, a: Assistant, judge: Judge) {
    j.hit.None? && OpenRouterOcr(cfg, j, openRouter).Some? ==>
      var j1 := OpenRouterOcr(cfg, j, openRouter).value;
      HonestHere(says, j1.text, j1.parsed, a, judge)
  }

  lemma RecognizeReads(cfg: Config, e: Engine)
    ensures RecognizeOne(cfg, e).Some? ==> RecognizeOne(cfg, e).value == ReadText(cfg, RecognizeOne(cfg, e).value.text)
  {
  }

  lemma CascadeReads(cfg: Config, tess: Engine, ollama: Engine)
    ensures var got := RecognizeCascade(cfg, tess, ollama);
      got.Some? ==> got.value == ReadText(cfg, got.value.text)
  {
    RecognizeReads(cfg, tess);
    RecognizeReads(cfg, ollama);
  }

  lemma OcrJobOk(cfg: Config, says: Verdicts, j: Job, got: Reading, shelf: Cache.Shelf, now: int)
    requires ShelfOk(cfg, says, shelf) && Unassisted(j.row) && j.hit.None? && got == ReadText(cfg, got.text)
    ensures JobOk(cfg, says, OcrJob(j, got, Cache.Found(cfg.cache, shelf, got.text, now)))
    ensures ShelfOk(cfg, says, Cache.AfterGet(cfg.cache, shelf, got.text, now))
  {
  }

  /** Whatever the engines read, StageOCR leaves the job with the parse of its text. */
  lemma OcrKeeps(cfg: Config, says: Verdicts, j: Job, tess: Engine, ollama: Engine, shelf: Cache.Shelf, now: int)
    requires ShelfOk(cfg, says, shelf) && Unassisted(j.row) && j.hit.None?
    ensures StageOcr(cfg, j, tess, ollama, shelf, now).Pass? ==>
        JobOk(cfg, says, StageOcr(cfg, j, tess, ollama, shelf, now).job)
    ensures ShelfOk(cfg, says, ShelfAfterOcr(cfg, tess, ollama, shelf, now))
  {
    CascadeReads(cfg, tess, ollama);
    var got := RecognizeCascade(cfg, tess, ollama);
    if got.Some? { OcrJobOk(cfg, says, j, got.value, shelf, now); }
  }

  lemma OpenRouterKeeps(cfg: Config, says: Verdicts, j: Job, e: Engine)
    requires JobOk(cfg, says, j) && j.hit.None? && OpenRouterOcr(cfg, j, e).Some?
    ensures JobOk(cfg, says, OpenRouterOcr(cfg, j, e).value) && OpenRouterOcr(cfg, j, e).value.hit.None?
  {
    RecognizeReads(cfg, e);
  }

  ghost predicate HonestHere(says: Verdicts, text: string, x: Result, a: Assistant, judge: Judge) {
    && (judge.Judge? && judge.first.Some? ==> says(text, x, judge.first.value))
    && (judge.Judge? && judge.again.Some? ==> says(text, AssistExtract(x, a), judge.again.value))
  }

  /** The judgment that comes out of judgeWithAssist is about an extract with the items and totals that come
      out with it; a complete extract comes out as it went in, judged itself, and the assistant unasked. */
  lemma JudgeIsAboutExtract(says: Verdicts, text: string, r: Row, x: Result, a: Assistant, judge: Judge)
    requires HonestHere(says, text, x, a, judge)
    ensures var out := JudgeWithAssist(r, x, a, judge);
      && (out.judgment.Some? ==> JudgedLike(says, text, out.parsed, out.judgment.value))
      && (!IncompleteSpec(x) ==> out.row == r && out.parsed == x)
      && (!IncompleteSpec(x) && out.judgment.Some? ==> JudgedOn(says, text, x, out.judgment.value))
  {
    var out := JudgeWithAssist(r, x, a, judge);
    if out.judgment.Some? {
      var y := AssistExtract(x, a);
      if a.NoAssistant? || !IncompleteSpec(x) || !ExtractChangedSpec(x, y) {
        assert out.judgment.value == Compose(x, judge.first.value);
        assert JudgedOn(says, text, x, out.judgment.value);
        assert SameExtract(out.parsed, x);
      } else {
        assert out.judgment.value == Compose(y, judge.again.value);
        assert JudgedOn(says, text, y, out.judgment.value);
        assert SameExtract(out.parsed, y);
      }
    }
  }

  lemma SameRowExtract(says: Verdicts, text: string, x: Result, y: Result, v: Judgment)
    requires JudgedLike(says, text, x, v) && SameExtract(x, y)
    ensures JudgedLike(says, text, y, v)
  {
    var z: Result :| SameExtract(x, z) && JudgedOn(says, text, z, v);
    assert SameExtract(y, z);
  }

  // What StageJev hands to the store and later to the cache.
  ghost predicate NextOk(cfg: Config, says: Verdicts, next: Next) {
    && next.Save?
    && (next.job.row.status == Done || next.job.row.status == Failed)
    && (next.job.row.status == Done ==> Coherent(says, next.job.row))
    && (next.job.row.status == Failed ==>
        next.entry == None && next.job.row.verdict.needsReview && next.job.row.error != NoCause)
    && (next.entry.Some? ==> EntryOk(cfg, says, next.job.text, next.entry.value))
  }

  lemma HitKeeps(cfg: Config, says: Verdicts, j: Job)
    requires JobOk(cfg, says, j) && j.hit.Some?
    ensures Coherent(says, HitRow(j.row, j.hit.value))
  {
    var e := j.hit.value;
    SameRowExtract(says, j.text, e.parsed, ExtractOf(HitRow(j.row, e)), e.judgment);
  }

  lemma FreshKeeps(cfg: Config, says: Verdicts, j: Job, a: Assistant, judge: Judge)
    requires JobOk(cfg, says, j) && HonestHere(says, j.text, j.parsed, a, judge)
    requires JudgeWithAssist(j.row, j.parsed, a, judge).judgment.Some?
    ensures var out := JudgeWithAssist(j.row, j.parsed, a, judge);
      var row := WithExtract(out.row, out.parsed).(verdict := out.judgment.value, status := Done);
      var done := j.(row := row, parsed := out.parsed);
      Coherent(says, done.row) && EntryOk(cfg, says, j.text, EntryOf(done))
  {
    JudgeIsAboutExtract(says, j.text, j.row, j.parsed, a, judge);
    var out := JudgeWithAssist(j.row, j.parsed, a, judge);
    var row := WithExtract(out.row, out.parsed).(verdict := out.judgment.value, status := Done);
    SameRowExtract(says, j.text, out.parsed, ExtractOf(row), out.judgment.value);
    assert row.ocrText == j.text;
  }

  /** On every path through StageJev, with or without a hit, OpenRouter, the assistant and its changes, a row
      handed over as done is coherent and what goes into the cache is a good entry for its text. */
  lemma JevKeeps(cfg: Config, says: Verdicts, j: Job, openRouter: Engine, a: Assistant, judge: Judge)
    requires JobOk(cfg, says, j) && Honest(cfg, says, j, openRouter, a, judge)
    ensures NextOk(cfg, says, StageJev(cfg, j, openRouter, a, judge))
  {
    if j.hit.Some? {
      HitKeeps(cfg, says, j);
    } else if OpenRouterOcr(cfg, j, openRouter).Some? {
      OpenRouterKeeps(cfg, says, j, openRouter);
      var j1 := OpenRouterOcr(cfg, j, openRouter).value;
      if JudgeWithAssist(j1.row, j1.parsed, a, judge).judgment.Some? {
        FreshKeeps(cfg, says, j1, a, judge);
      }
    }
  }

  /** Setting a good entry keeps the shelf good. */
  lemma SetKeeps(cfg: Config, says: Verdicts, j: Job, entry: Option<Cache.Entry>, shelf: Cache.Shelf, now: int)
    requires ShelfOk(cfg, says, shelf) && (entry.Some? ==> EntryOk(cfg, says, j.text, entry.value))
    ensures ShelfOk(cfg, says, ShelfAfterDone(cfg, j, entry, shelf, now))
  {
    if entry.Some? {
      var e := entry.value;
      assert EntryOk(cfg, says, j.text, e.(createdAt := now));
    }
  }

  // Asked twice about the same, the judge composes the same verdict.
  ghost predicate Deterministic(says: Verdicts) {
    forall text, x, a, b :: says(text, x, a) && says(text, x, b) ==> Compose(x, a) == Compose(x, b)
  }

  /** The cache is transparent where no escalation is needed: with a deterministic judge, a hit hands over
      the very row a fresh run would have, whatever OpenRouter and the assistant have to offer. */
  lemma HitIsFreshRun(cfg: Config, says: Verdicts, j: Job, openRouter: Engine, a: Assistant, judge: Judge)
    requires JobOk(cfg, says, j) && j.hit.Some? && !NeedsEscalate(j.text, j.parsed) && Deterministic(says)
    requires Honest(cfg, says, j.(hit := None), openRouter, a, judge) && judge.Judge? && judge.first.Some?
    ensures StageJev(cfg, j, openRouter, a, judge).job.row ==
        StageJev(cfg, j.(hit := None), openRouter, a, judge).job.row
    ensures StageJev(cfg, j, openRouter, a, judge).job.row.status == Done
  {
    var e, anew := j.hit.value, j.(hit := None);
    assert OpenRouterOcr(cfg, anew, openRouter) == Some(anew);
    var b: Answers :| says(j.text, j.parsed, b) && e.judgment == Compose(j.parsed, b);
    assert says(j.text, j.parsed, judge.first.value);
    assert JudgeWithAssist(j.row, j.parsed, a, judge) ==
        Judged(j.row, j.parsed, Some(Compose(j.parsed, judge.first.value)));
  }
}
