/** internal/invoice: what the three stages do to one job.

    What the outside world answers comes in as values: what each OCR engine reads, what the assistant
    proposes, what the judge answers.  A stage is cut where it waits for the store: the functions here say
    what it does up to its Update and which row it hands over. */
module Invoice {
  import opened Text
  import opened Extract
  import opened Clean
  import opened Jev
  import Cache

  datatype Status = Queued | Processing | Done | Failed

  datatype Cause = NoCause | PreprocessCause | OcrCause | JevCause

  // The stored invoice. `verdict` stands for the fields applyJudgment copies.
  datatype Row = Row(
    status: Status, ocrText: string, ocrConfidence: real,
    items: seq<Item>, estimatedTotal: real, computedItemsTotal: real,
    verdict: Judgment, assistUsed: bool, assistNotes: string, assistModel: string, error: Cause)

  const NEW_ROW := Row(Queued, "", 0.0, [], 0.0, 0.0, NO_JUDGMENT, false, "", "", NoCause)

  // What a job carries from stage to stage beside its invoice.
  datatype Job = Job(row: Row, text: string, confidence: real, parsed: Result, hit: Option<Cache.Entry>)

  const NOTHING := Result([], 0.0, 0.0, false)

  const NEW_JOB := Job(NEW_ROW, "", 0.0, NOTHING, None)

  // NewService sets 0.75 and Configure keeps to [0, 1].
  type Share = r: real | 0.0 <= r <= 1.0 witness 0.75

  datatype Config = Config(lx: Lexicon, minConfidence: Share, cache: Cache.Options)

  // The world's answers.

  datatype Engine = Unavailable | Errs | Reads(raw: string)

  datatype Assistant =
    | NoAssistant
    | AssistErrs(model: string, notes: string)
    | Assists(model: string, notes: string, improved: Result)

  // What the judge answers when asked, and when asked again.
  datatype Judge = NoJudge | Judge(first: Option<Answers>, again: Option<Answers>)

  // OCR.

  const MIN_OCR_CHARS := 40

  // len of a Go string: the bytes of its UTF-8 encoding.
  function Bytes(s: string): nat {
    if s == "" then 0
    else
      var c := s[0] as int;
      (if c < 0x80 then 1 else if c < 0x800 then 2 else if c < 0x1_0000 then 3 else 4) + Bytes(s[1..])
  }

  predicate NeedsEscalate(text: string, parsed: Result) {
    Bytes(TrimSpace(text)) < MIN_OCR_CHARS || IncompleteSpec(parsed)
  }

  function ExtractConfidence(text: string, parsed: Result): real {
    if NeedsEscalate(text, parsed) then 0.0 else 1.0
  }

  predicate BelowMinConfidence(cfg: Config, text: string, parsed: Result) {
    ExtractConfidence(text, parsed) < cfg.minConfidence
  }

  datatype Reading = Reading(text: string, confidence: real, parsed: Result)

  function ReadText(cfg: Config, text: string): Reading {
    var parsed := ParseSpec(cfg.lx, text);
    Reading(text, ExtractConfidence(text, parsed), parsed)
  }

  function RecognizeOne(cfg: Config, e: Engine): Option<Reading> {
    match e
    case Reads(raw) => Some(ReadText(cfg, CleanSpec(raw)))
    case _ => None
  }

  // The job with a reading as its text.
  function WithReading(j: Job, got: Reading): Job {
    j.(row := j.row.(ocrText := got.text, ocrConfidence := got.confidence),
       text := got.text, confidence := got.confidence, parsed := got.parsed)
  }

  // Tesseract's reading when it is good enough or has items; then Ollama's; then whatever there is.
  function RecognizeCascade(cfg: Config, tess: Engine, ollama: Engine): Option<Reading> {
    var t := RecognizeOne(cfg, tess);
    if t.Some? && (!BelowMinConfidence(cfg, t.value.text, t.value.parsed) || t.value.parsed.items != []) then t
    else
      var o := RecognizeOne(cfg, ollama);
      if o.Some? then o else t
  }

  // Stages.

  // What a stage asks of the store next, or how it returns.
  datatype Next = Save(job: Job, entry: Option<Cache.Entry>) | Pass(job: Job)

  function Mark(j: Job): Job {
    j.(row := j.row.(status := Processing))
  }

  function Fail(j: Job, cause: Cause): Next {
    Save(j.(row := j.row.(status := Failed, error := cause, verdict := j.row.verdict.(needsReview := true))), None)
  }

  function WithExtract(r: Row, x: Result): Row {
    r.(items := x.items, estimatedTotal := x.estimatedTotal, computedItemsTotal := x.computedItemsTotal)
  }

  // StagePreprocess after its first Update went through.
  function AfterMark(j: Job, prepared: bool): Next {
    if prepared then Pass(j) else Fail(j, PreprocessCause)
  }

  // What StageOCR leaves when an engine has read something; a hit is only ever set, never cleared.
  function OcrJob(j: Job, got: Reading, found: Option<Cache.Entry>): Job {
    var read := WithReading(j, got);
    read.(row := WithExtract(read.row, got.parsed), hit := if found.Some? then found else j.hit)
  }

  function StageOcr(cfg: Config, j: Job, tess: Engine, ollama: Engine, shelf: Cache.Shelf, now: int): Next {
    match RecognizeCascade(cfg, tess, ollama)
    case None => Fail(j, OcrCause)
    case Some(got) => Pass(OcrJob(j, got, Cache.Found(cfg.cache, shelf, got.text, now)))
  }

  // The cache is looked up only when an engine has read something.
  function ShelfAfterOcr(cfg: Config, tess: Engine, ollama: Engine, shelf: Cache.Shelf, now: int): Cache.Shelf {
    match RecognizeCascade(cfg, tess, ollama)
    case None => shelf
    case Some(got) => Cache.AfterGet(cfg.cache, shelf, got.text, now)
  }

  function HitRow(r: Row, e: Cache.Entry): Row {
    WithExtract(r, e.parsed).(
      verdict := e.judgment, assistUsed := e.assistUsed, assistNotes := e.assistNotes, assistModel := e.assistModel,
          status := Done)
  }

  // applyOpenRouterOCR: None is its error.
  function OpenRouterOcr(cfg: Config, j: Job, e: Engine): Option<Job> {
    if e.Unavailable? || !BelowMinConfidence(cfg, j.text, j.parsed) then Some(j)
    else
      match RecognizeOne(cfg, e)
      case None => None
      case Some(got) => Some(WithReading(j, got))
  }

  // applyAssist, once the assistant is known to be asked.
  function AssistRow(r: Row, a: Assistant): Row {
    match a
    case NoAssistant => r
    case AssistErrs(model, notes) => r.(assistModel := model, assistNotes := notes, assistUsed := false)
    case Assists(model, notes, _) => r.(assistModel := model, assistUsed := true, assistNotes := notes)
  }

  function AssistExtract(hint: Result, a: Assistant): Result {
    if a.Assists? && a.improved.items != [] then a.improved else hint
  }

  // FoundTotal is not looked at.
  predicate ExtractChangedSpec(before: Result, after: Result) {
    after.items != [] &&
    (|before.items| != |after.items| || before.estimatedTotal != after.estimatedTotal ||
     before.computedItemsTotal != after.computedItemsTotal || before.items != after.items)
  }

  method ExtractChanged(before: Result, after: Result) returns (changed: bool)
    ensures changed == ExtractChangedSpec(before, after)
  {
    if |after.items| == 0 {
      return false;
    }
    if |before.items| != |after.items| {
      return true;
    }
    if before.estimatedTotal != after.estimatedTotal || before.computedItemsTotal != after.computedItemsTotal {
      return true;
    }
    for i := 0 to |before.items|
      invariant before.items[..i] == after.items[..i]
    {
      if before.items[i] != after.items[i] {
        return true;
      }
    }
    assert before.items == before.items[..|before.items|] == after.items[..|before.items|] == after.items;
    return false;
  }

  datatype Judged = Judged(row: Row, parsed: Result, judgment: Option<Judgment>)

  function JudgmentOf(parsed: Result, answers: Option<Answers>): Option<Judgment> {
    match answers
    case None => None
    case Some(a) => Some(Compose(parsed, a))
  }

  // judgeWithAssist, with the assistant and the judge one after the other.
  function JudgeWithAssist(r: Row, parsed: Result, a: Assistant, judge: Judge): Judged {
    if judge.NoJudge? then Judged(r, parsed, None)
    else if a.NoAssistant? || !IncompleteSpec(parsed) then Judged(r, parsed, JudgmentOf(parsed, judge.first))
    else
      var x := AssistExtract(parsed, a);
      Judged(AssistRow(r, a), x,
             if ExtractChangedSpec(parsed, x) then JudgmentOf(x, judge.again) else JudgmentOf(parsed, judge.first))
  }

  // What a done job leaves in the cache.
  function EntryOf(j: Job): Cache.Entry {
    Cache.Entry(j.text, j.confidence, j.parsed, j.row.verdict, j.row.assistUsed, j.row.assistNotes,
        j.row.assistModel, 0)
  }

  // StageJev after the OpenRouter fallback.
  function JudgeJob(j: Job, a: Assistant, judge: Judge): Next {
    var out := JudgeWithAssist(j.row, j.parsed, a, judge);
    match out.judgment
    case None => Fail(j.(row := out.row), JevCause)
    case Some(v) =>
      var done := j.(row := WithExtract(out.row, out.parsed).(verdict := v, status := Done), parsed := out.parsed);
      Save(done, Some(EntryOf(done)))
  }

  function StageJev(cfg: Config, j: Job, openRouter: Engine, a: Assistant, judge: Judge): Next {
    match j.hit
    case Some(e) => Save(j.(row := HitRow(j.row, e), parsed := e.parsed), None)
    case None =>
      match OpenRouterOcr(cfg, j, openRouter)
      case None => Fail(j, OcrCause)
      case Some(read) => JudgeJob(read, a, judge)
  }

  // The cache is filled after the Update of a fresh result went through.
  function ShelfAfterDone(cfg: Config, j: Job, entry: Option<Cache.Entry>, shelf: Cache.Shelf, now: int): Cache.Shelf {
    match entry
    case None => shelf
    case Some(e) => Cache.AfterSet(cfg.cache, shelf, j.text, e, now)
  }
}
