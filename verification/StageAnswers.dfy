/** What the stages answer, told from what the engines read, what the assistant proposes and what the judge says:
    whose reading comes out, what is judged, and when a job fails. */
module StageAnswers {
  import opened Text
  import opened Extract
  import opened Clean
  import opened CleanTheorems
  import opened ExtractTheorems
  import opened ParseAnswers
  import opened Jev
  import opened Invoice
  import opened InvoiceTheorems
  import Cache

  // Reading.

  lemma BytesConcat(a: string, b: string)
    ensures Bytes(a + b) == Bytes(a) + Bytes(b)
  {
    if a == "" {
      assert a + b == b;
    } else {
      assert (a + b)[1..] == a[1..] + b;
      BytesConcat(a[1..], b);
    }
  }

  /** A character takes one byte in ASCII, two up to U+07FF, three up to U+FFFF and four beyond. */
  lemma {:induction false} BytesBetween(s: string, lo: nat, hi: nat)
    requires 1 <= lo <= hi <= 4
    requires forall k :: 0 <= k < |s| ==> hi < 4 ==> s[k] as int < [0x80, 0x800, 0x1_0000][hi - 1]
    requires forall k :: 0 <= k < |s| ==> lo > 1 ==> s[k] as int >= [0x80, 0x800, 0x1_0000][lo - 2]
    ensures lo * |s| <= Bytes(s) <= hi * |s|
  {
    if s != "" {
      forall k | 0 <= k < |s[1..]| ensures s[1..][k] == s[k + 1] {}
      BytesBetween(s[1..], lo, hi);
    }
  }

  /** A text is long enough and its parse complete. */
  predicate Solid(text: string, x: Result) {
    Bytes(TrimSpace(text)) >= 40 && Complete(x)
  }

  lemma EscalateIff(text: string, x: Result)
    ensures NeedsEscalate(text, x) <==> !Solid(text, x)
    ensures ExtractConfidence(text, x) == if Solid(text, x) then 1.0 else 0.0
  {
    IncompleteIff(x);
  }

  lemma BelowIff(cfg: Config, text: string, x: Result)
    ensures BelowMinConfidence(cfg, text, x) <==> cfg.minConfidence > 0.0 && !Solid(text, x)
  {
    EscalateIff(text, x);
  }

  // What one engine's text comes to.
  predicate ReadingOf(cfg: Config, raw: string, got: Reading) {
    && got.text == CleanSpec(raw)
    && got.parsed == ParseSpec(cfg.lx, CleanSpec(raw))
    && got.confidence == if Solid(got.text, got.parsed) then 1.0 else 0.0
  }

  /** An engine's reading is its text cleaned, the parse of that, and a confidence of one exactly where that is long
      enough and complete; where the patterns are wordy, it is the parse of the text without its fences. */
  lemma RecognizeOneIs(cfg: Config, e: Engine)
    ensures RecognizeOne(cfg, e).Some? <==> e.Reads?
    ensures e.Reads? ==> ReadingOf(cfg, e.raw, RecognizeOne(cfg, e).value)
    ensures e.Reads? && Wordy(cfg.lx) ==> RecognizeOne(cfg, e).value.parsed == ParseSpec(cfg.lx, TrimFences(e.raw))
  {
    if e.Reads? {
      EscalateIff(CleanSpec(e.raw), ParseSpec(cfg.lx, CleanSpec(e.raw)));
      if Wordy(cfg.lx) { CleanPreservesParse(cfg.lx, e.raw); }
    }
  }

  // What Tesseract has read is kept although Ollama could be asked.
  predicate GoodEnough(cfg: Config, raw: string) {
    var x := ParseSpec(cfg.lx, CleanSpec(raw));
    cfg.minConfidence == 0.0 || x.items != [] || Solid(CleanSpec(raw), x)
  }

  // Whose text comes out of the cascade.
  function Chosen(cfg: Config, tess: Engine, ollama: Engine): Option<string> {
    if tess.Reads? && (GoodEnough(cfg, tess.raw) || !ollama.Reads?) then Some(tess.raw)
    else if ollama.Reads? then Some(ollama.raw)
    else None
  }

  /** Something is read exactly if one of the engines reads something. It is Tesseract's text if that was read and
      has items, or is long enough and complete, or nothing is asked of it, or Ollama read nothing; otherwise it is
      Ollama's. */
  lemma CascadeIs(cfg: Config, tess: Engine, ollama: Engine)
    ensures var got, raw := RecognizeCascade(cfg, tess, ollama), Chosen(cfg, tess, ollama);
      && (got.Some? <==> tess.Reads? || ollama.Reads?) && (got.Some? <==> raw.Some?)
      && (got.Some? ==> ReadingOf(cfg, raw.value, got.value))
  {
    RecognizeOneIs(cfg, tess);
    RecognizeOneIs(cfg, ollama);
    if tess.Reads? { BelowIff(cfg, CleanSpec(tess.raw), ParseSpec(cfg.lx, CleanSpec(tess.raw))); }
  }

  // The job carries this reading and its row shows it.
  predicate Carries(j: Job, got: Reading) {
    && j.text == j.row.ocrText == got.text && j.confidence == j.row.ocrConfidence == got.confidence
    && j.parsed == got.parsed
  }

  // A row that differs from another only in what a failure sets.
  predicate FailedFrom(r: Row, was: Row, cause: Cause) {
    && r.status == Failed && r.error == cause && r.verdict.needsReview
    && r == was.(status := r.status, error := r.error, verdict := was.verdict.(needsReview := true))
  }

  /** StagePreprocess goes on exactly if the image could be prepared, and fails with its own cause otherwise. */
  lemma PreprocessIs(j: Job, prepared: bool)
    ensures var next := AfterMark(j, prepared);
      && (prepared ==> next == Pass(j))
      && (!prepared ==>
            && next.Save? && next.entry == None && FailedFrom(next.job.row, j.row, PreprocessCause)
            && next.job == j.(row := next.job.row))
    ensures Mark(j) == j.(row := j.row.(status := Processing))
  {
  }

  /** StageOCR fails exactly if no engine read anything; otherwise it goes on with the chosen reading, its items and
      totals on the row, and the cache's entry for its text, if there is one. */
  lemma OcrIs(cfg: Config, j: Job, tess: Engine, ollama: Engine, shelf: Cache.Shelf, now: int)
    ensures var next, raw := StageOcr(cfg, j, tess, ollama, shelf, now), Chosen(cfg, tess, ollama);
      match raw
      case None =>
        && next.Save? && next.entry == None && next.job == j.(row := next.job.row)
        && FailedFrom(next.job.row, j.row, OcrCause) && ShelfAfterOcr(cfg, tess, ollama, shelf, now) == shelf
      case Some(text) =>
        && next.Pass? && var got := Reading(next.job.text, next.job.confidence, next.job.parsed);
        && ReadingOf(cfg, text, got) && Carries(next.job, got)
        && next.job.row.items == got.parsed.items && next.job.row.estimatedTotal == got.parsed.estimatedTotal
        && next.job.row.computedItemsTotal == got.parsed.computedItemsTotal
        && next.job.row.status == j.row.status && next.job.row.verdict == j.row.verdict
        && next.job.row.error == j.row.error && next.job.row.assistNotes == j.row.assistNotes
        && next.job.row.assistUsed == j.row.assistUsed && next.job.row.assistModel == j.row.assistModel
        && var en := Cache.Found(cfg.cache, shelf, CleanSpec(text), now);
        && next.job.hit == (if en.Some? then en else j.hit)
        && ShelfAfterOcr(cfg, tess, ollama, shelf, now) == Cache.AfterGet(cfg.cache, shelf, CleanSpec(text), now)
  {
    CascadeIs(cfg, tess, ollama);
  }

  // OpenRouter is asked about a job: it is there and the reading is not good enough.
  predicate AsksOpenRouter(cfg: Config, j: Job, e: Engine) {
    !e.Unavailable? && cfg.minConfidence > 0.0 && !Solid(j.text, j.parsed)
  }

  /** The fallback changes nothing where it is not asked, fails where it is asked and reads nothing, and otherwise
      replaces the reading, but not yet the items and totals on the row. */
  lemma OpenRouterIs(cfg: Config, j: Job, e: Engine)
    ensures var out := OpenRouterOcr(cfg, j, e);
      && (!AsksOpenRouter(cfg, j, e) ==> out == Some(j))
      && (AsksOpenRouter(cfg, j, e) && !e.Reads? ==> out == None)
      && (AsksOpenRouter(cfg, j, e) && e.Reads? ==>
            && out.Some? && var got := Reading(out.value.text, out.value.confidence, out.value.parsed);
            && ReadingOf(cfg, e.raw, got) && Carries(out.value, got) && out.value.hit == j.hit
            && out.value.row == j.row.(ocrText := got.text, ocrConfidence := got.confidence))
  {
    BelowIff(cfg, j.text, j.parsed);
    RecognizeOneIs(cfg, e);
  }

  // Judging.

  // The assistant is asked: it is there and the extract is incomplete.
  predicate AsksAssistant(x: Result, a: Assistant) {
    !a.NoAssistant? && !Complete(x)
  }

  // What it proposes, if it is asked and answers with items.
  function Proposed(x: Result, a: Assistant): Result {
    if AsksAssistant(x, a) && a.Assists? && |a.improved.items| > 0 then a.improved else x
  }

  // The answers the judgment depends on: those on the changed extract, if the assistant changed it.
  function Deciding(x: Result, a: Assistant, judge: Judge): Option<Answers>
    requires judge.Judge?
  {
    if SameExtract(x, Proposed(x, a)) then judge.first else judge.again
  }

  predicate SameAssist(used: bool, notes: string, model: string, r: Row) {
    r.assistUsed == used && r.assistNotes == notes && r.assistModel == model
  }

  // What a done row shows of the assistant.
  predicate AssistShown(r: Row, was: Row, x: Result, a: Assistant) {
    if !AsksAssistant(x, a) then SameAssist(was.assistUsed, was.assistNotes, was.assistModel, r)
    else
      match a
      case NoAssistant => false
      case AssistErrs(model, notes) => SameAssist(false, notes, model, r)
      case Assists(model, notes, _) => SameAssist(true, notes, model, r)
  }

  lemma ChangedIff(x: Result, y: Result)
    ensures ExtractChangedSpec(x, y) <==> |y.items| > 0 && !SameExtract(x, y)
  {
  }

  /** judgeWithAssist: there is no judgment exactly if there is no judge or the answers it depends on are missing;
      otherwise it is the verdict composed from them and from the extract as it comes out, which is what the
      assistant proposed where it was asked and proposed items, and else what went in. */
  lemma JudgeIs(r: Row, x: Result, a: Assistant, judge: Judge)
    ensures var out := JudgeWithAssist(r, x, a, judge);
      && (judge.NoJudge? ==> out == Judged(r, x, None))
      && (judge.Judge? ==>
            && out.parsed == Proposed(x, a) && AssistShown(out.row, r, x, a)
            && out.row == r.(assistUsed := out.row.assistUsed, assistNotes := out.row.assistNotes,
                             assistModel := out.row.assistModel)
            && (out.judgment == None <==> Deciding(x, a, judge) == None)
            && (out.judgment.Some? ==> out.judgment.value == Compose(out.parsed, Deciding(x, a, judge).value)))
  {
    IncompleteIff(x);
    ChangedIff(x, AssistExtract(x, a));
    var out, y := JudgeWithAssist(r, x, a, judge), Proposed(x, a);
    if judge.Judge? && out.judgment.Some? && SameExtract(x, y) { SameVerdict(x, y, judge.first.value); }
  }

  lemma SameVerdict(x: Result, y: Result, answers: Answers)
    requires SameExtract(x, y)
    ensures Compose(x, answers) == Compose(y, answers)
  {
    VerdictReadsTotals(x, y, answers);
  }

  /** In particular, without an assistant, or where the extract is complete, the judge's first answers decide and
      nothing else changes. */
  lemma JudgedAsItIs(r: Row, x: Result, a: Assistant, answers: Answers, again: Option<Answers>)
    requires a.NoAssistant? || Complete(x)
    ensures JudgeWithAssist(r, x, a, Judge(Some(answers), again)) == Judged(r, x, Some(Compose(x, answers)))
  {
    JudgeIs(r, x, a, Judge(Some(answers), again));
  }

  // StageJev.

  // The job that is judged: OpenRouter's reading where it was asked, else as it came.
  function ToJudge(cfg: Config, j: Job, e: Engine): Job
    requires OpenRouterOcr(cfg, j, e).Some?
  {
    OpenRouterOcr(cfg, j, e).value
  }

  /** Without a hit a job fails exactly if OpenRouter was asked and read nothing, or there is no judge, or the answers
      its judgment depends on are missing: with the OCR's cause in the first case and the judge's in the others. */
  lemma JevFailsIff(cfg: Config, j: Job, e: Engine, a: Assistant, judge: Judge)
    requires j.hit.None?
    ensures var next, noText := StageJev(cfg, j, e, a, judge), AsksOpenRouter(cfg, j, e) && !e.Reads?;
      && next.Save? && (next.job.row.status == Done || next.job.row.status == Failed)
      && (next.job.row.status == Failed <==>
            noText || (OpenRouterOcr(cfg, j, e).Some? &&
                       (judge.NoJudge? || Deciding(ToJudge(cfg, j, e).parsed, a, judge) == None)))
      && (noText ==> FailedFrom(next.job.row, j.row, OcrCause))
      && (next.job.row.status == Failed && !noText ==> next.job.row.error == JevCause)
      && (next.job.row.status == Failed ==> next.entry == None && next.job.row.verdict.needsReview)
  {
    OpenRouterIs(cfg, j, e);
    if OpenRouterOcr(cfg, j, e).Some? {
      var j1 := ToJudge(cfg, j, e);
      JudgeIs(j1.row, j1.parsed, a, judge);
    }
  }

  // A row that differs from another only in what a verdict on an extract sets.
  predicate DoneFrom(r: Row, was: Row, x: Result, v: Judgment) {
    && r.status == Done && r.items == x.items && r.estimatedTotal == x.estimatedTotal
    && r.computedItemsTotal == x.computedItemsTotal && r.verdict == v
    && r.ocrText == was.ocrText && r.ocrConfidence == was.ocrConfidence && r.error == was.error
  }

  /** A fresh result: the row shows the extract that was judged, the verdict on it and what the assistant said, and
      the entry for the cache holds the same under the job's text. */
  lemma JevDoneIs(cfg: Config, j: Job, e: Engine, a: Assistant, judge: Judge)
    requires j.hit.None? && StageJev(cfg, j, e, a, judge).job.row.status == Done
    ensures OpenRouterOcr(cfg, j, e).Some? && judge.Judge?
    ensures var next, j1 := StageJev(cfg, j, e, a, judge), ToJudge(cfg, j, e);
      var x, r, answers := Proposed(j1.parsed, a), next.job.row, Deciding(j1.parsed, a, judge);
      && answers.Some? && next.job == j1.(row := r, parsed := x)
      && DoneFrom(r, j1.row, x, Compose(x, answers.value)) && AssistShown(r, j1.row, j1.parsed, a)
      && next.entry.Some? && var en := next.entry.value;
      && en.text == j1.text && en.confidence == j1.confidence && en.parsed == x && en.judgment == r.verdict
      && SameAssist(en.assistUsed, en.assistNotes, en.assistModel, r)
  {
    JevFailsIff(cfg, j, e, a, judge);
    var j1 := ToJudge(cfg, j, e);
    JudgeIs(j1.row, j1.parsed, a, judge);
  }

  /** A hit: the row shows the entry's extract and verdict, and the entry's own word on the assistant, used or not. */
  lemma HitIs(cfg: Config, j: Job, e: Engine, a: Assistant, judge: Judge)
    requires j.hit.Some?
    ensures var next, en := StageJev(cfg, j, e, a, judge), j.hit.value;
      && next.Save? && next.entry == None && next.job == j.(row := next.job.row, parsed := en.parsed)
      && DoneFrom(next.job.row, j.row, en.parsed, en.judgment)
      && SameAssist(en.assistUsed, en.assistNotes, en.assistModel, next.job.row)
  {
  }

  // Two done rows that say the same about the receipt.
  predicate SameFindings(r: Row, s: Row) {
    && r.status == s.status && r.items == s.items && r.estimatedTotal == s.estimatedTotal
    && r.computedItemsTotal == s.computedItemsTotal && r.verdict == s.verdict
    && SameAssist(r.assistUsed, r.assistNotes, r.assistModel, s)
  }

  /** A hit repeats the row that filled the cache, with whatever the assistant said then. */
  lemma HitRepeats(cfg: Config, j: Job, e: Engine, a: Assistant, judge: Judge,
      later: Job, e': Engine, a': Assistant, judge': Judge, at: int)
    requires j.hit.None? && StageJev(cfg, j, e, a, judge).job.row.status == Done
    requires StageJev(cfg, j, e, a, judge).entry.Some?
    requires later.hit == Some(StageJev(cfg, j, e, a, judge).entry.value.(createdAt := at))
    ensures SameFindings(StageJev(cfg, later, e', a', judge').job.row, StageJev(cfg, j, e, a, judge).job.row)
  {
    JevDoneIs(cfg, j, e, a, judge);
    HitIs(cfg, later, e', a', judge');
  }

  /** What a done job leaves in an enabled cache is found under its text until it is too old, and no other text is
      touched; a hit leaves nothing. */
  lemma DoneIsFound(cfg: Config, j: Job, en: Cache.Entry, shelf: Cache.Shelf, now: int, text: string, later: int)
    requires cfg.cache.enabled
    ensures var shelf' := ShelfAfterDone(cfg, j, Some(en), shelf, now);
      && (text == j.text ==>
            Cache.Found(cfg.cache, shelf', text, later) ==
            (if cfg.cache.ttl > 0 && later - now > cfg.cache.ttl then None else Some(en.(createdAt := now))))
      && (text != j.text ==> Cache.Found(cfg.cache, shelf', text, later) == Cache.Found(cfg.cache, shelf, text, later))
    ensures ShelfAfterDone(cfg, j, None, shelf, now) == shelf
  {
  }
}
