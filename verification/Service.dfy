/** The stages of internal/invoice as they run: methods that update the invoice, the job and the cache in
    place and hand rows to the store.  Each is proved to do what the functions of module Invoice say. */
module Service {
  import opened Text
  import opened Extract
  import opened Clean
  import opened Jev
  import I = Invoice
  import Cache

  class Invoice {
    var status: I.Status
    var ocrText: string
    var ocrConfidence: real
    var items: seq<Item>
    var estimatedTotal: real
    var computedItemsTotal: real
    var verdict: Judgment
    var assistUsed: bool
    var assistNotes: string
    var assistModel: string
    var error: I.Cause

    constructor ()
      ensures Row() == I.NEW_ROW
    {
      status, ocrText, ocrConfidence := I.Queued, "", 0.0;
      items, estimatedTotal, computedItemsTotal, verdict := [], 0.0, 0.0, NO_JUDGMENT;
      assistUsed, assistNotes, assistModel, error := false, "", "", I.NoCause;
    }

    function Row(): I.Row
      reads this
    {
      I.Row(status, ocrText, ocrConfidence, items, estimatedTotal, computedItemsTotal, verdict,
            assistUsed, assistNotes, assistModel, error)
    }

    method SetExtract(x: Result)
      modifies this
      ensures Row() == I.WithExtract(old(Row()), x)
    {
      items := x.items;
      estimatedTotal := x.estimatedTotal;
      computedItemsTotal := x.computedItemsTotal;
    }
  }

  class Job {
    const inv: Invoice
    var text: string
    var confidence: real
    var parsed: Result
    var hit: Option<Cache.Entry>

    constructor (inv: Invoice)
      requires inv.Row() == I.NEW_ROW
      ensures this.inv == inv && inv.Row() == I.NEW_ROW && Value() == I.NEW_JOB
    {
      this.inv := inv;
      text, confidence, parsed, hit := "", 0.0, I.NOTHING, None;
    }

    function Value(): I.Job
      reads this, inv
    {
      I.Job(inv.Row(), text, confidence, parsed, hit)
    }
  }

  class Stages {
    const cfg: I.Config
    const cache: Cache.MemoryCache
    var updates: seq<I.Row>  // the rows handed to store.Update, in order

    constructor (cfg: I.Config, cache: Cache.MemoryCache)
      requires cache.options == cfg.cache
      ensures this.cfg == cfg && this.cache == cache && updates == []
    {
      this.cfg, this.cache, updates := cfg, cache, [];
    }

    predicate Valid() {
      cache.options == cfg.cache
    }

    // store.Update: `saved` is what it will return.
    method Update(inv: Invoice, saved: bool) returns (ok: bool)
      modifies this
      ensures ok == saved && updates == old(updates) + [inv.Row()]
    {
      updates := updates + [inv.Row()];
      ok := saved;
    }

    method RecognizeOne(e: I.Engine) returns (got: Option<I.Reading>)
      ensures got == I.RecognizeOne(cfg, e)
    {
      match e
      case Unavailable => got := None;
      case Errs => got := None;
      case Reads(raw) =>
        var text := CleanText(raw);
        var parsed := Parse(cfg.lx, text);
        var weak := NeedsEscalate(text, parsed);
        got := Some(I.Reading(text, if weak then 0.0 else 1.0, parsed));
    }

    method NeedsEscalate(text: string, parsed: Result) returns (b: bool)
      ensures b == I.NeedsEscalate(text, parsed)
    {
      if I.Bytes(TrimSpace(text)) < I.MIN_OCR_CHARS {
        return true;
      }
      b := Incomplete(parsed);
    }

    method BelowMinConfidence(text: string, parsed: Result) returns (b: bool)
      ensures b == I.BelowMinConfidence(cfg, text, parsed)
    {
      var weak := NeedsEscalate(text, parsed);
      b := (if weak then 0.0 else 1.0) < cfg.minConfidence;
    }

    method RecognizeCascade(tess: I.Engine, ollama: I.Engine) returns (got: Option<I.Reading>)
      ensures got == I.RecognizeCascade(cfg, tess, ollama)
    {
      var t := RecognizeOne(tess);
      if t.Some? {
        var below := BelowMinConfidence(t.value.text, t.value.parsed);
        if !below {
          return t;
        }
        if |t.value.parsed.items| > 0 {
          return t;
        }
      }
      var o := RecognizeOne(ollama);
      if o.Some? {
        return o;
      }
      return t;
    }

    // fail: the stage's own error comes back even when the failure could not be saved.
    method Fail(j: Job, cause: I.Cause, saved: bool)
      modifies this, j.inv
      ensures j.Value() == I.Fail(old(j.Value()), cause).job
      ensures updates == old(updates) + [j.inv.Row()]
    {
      j.inv.status := I.Failed;
      j.inv.error := cause;
      j.inv.verdict := j.inv.verdict.(needsReview := true);
      var _ := Update(j.inv, saved);
    }

    method TakeReading(j: Job, got: I.Reading)
      modifies j, j.inv
      ensures j.Value() == I.WithReading(old(j.Value()), got)
    {
      j.text, j.confidence, j.parsed := got.text, got.confidence, got.parsed;
      j.inv.ocrText := got.text;
      j.inv.ocrConfidence := got.confidence;
    }

    method StagePreprocess(j: Job, saved: bool, prepared: bool, savedAgain: bool) returns (ok: bool)
      modifies this, j.inv
      ensures ok == (saved && prepared)
      ensures var marked := I.Mark(old(j.Value()));
        var end := I.AfterMark(marked, prepared);
        && j.Value() == (if saved then end.job else marked)
        && updates == old(updates) + [marked.row] + if saved && end.Save? then [end.job.row] else []
    {
      j.inv.status := I.Processing;
      var done := Update(j.inv, saved);
      if !done {
        return false;
      }
      if !prepared {
        Fail(j, I.PreprocessCause, savedAgain);
        return false;
      }
      return true;
    }

    method StageOcr(j: Job, tess: I.Engine, ollama: I.Engine, now: int, saved: bool) returns (ok: bool)
      requires Valid()
      modifies this, j, j.inv, cache
      ensures var next := I.StageOcr(cfg, old(j.Value()), tess, ollama, old(cache.Contents()), now);
        ok == next.Pass? && j.Value() == next.job && updates == old(updates) + if ok then [] else [next.job.row]
      ensures cache.Contents() == I.ShelfAfterOcr(cfg, tess, ollama, old(cache.Contents()), now)
    {
      var got := RecognizeCascade(tess, ollama);
      if got.None? {
        Fail(j, I.OcrCause, saved);
        return false;
      }
      TakeReading(j, got.value);
      var entry := cache.Get(got.value.text, now);
      if entry.Some? {
        j.hit := entry;
      }
      j.inv.SetExtract(got.value.parsed);
      return true;
    }

    method ApplyOpenRouterOcr(j: Job, e: I.Engine) returns (ok: bool)
      modifies j, j.inv
      ensures var r := I.OpenRouterOcr(cfg, old(j.Value()), e);
        ok == r.Some? && j.Value() == if r.Some? then r.value else old(j.Value())
    {
      if e.Unavailable? {
        return true;
      }
      var below := BelowMinConfidence(j.text, j.parsed);
      if !below {
        return true;
      }
      var got := RecognizeOne(e);
      if got.None? {
        return false;
      }
      TakeReading(j, got.value);
      return true;
    }

    method ApplyAssist(inv: Invoice, a: I.Assistant, hint: Result) returns (parsed: Result)
      modifies inv
      ensures inv.Row() == I.AssistRow(old(inv.Row()), a) && parsed == I.AssistExtract(hint, a)
    {
      parsed := hint;
      match a
      case NoAssistant =>
      case AssistErrs(model, notes) =>
        inv.assistModel := model;
        inv.assistNotes := notes;
        inv.assistUsed := false;
      case Assists(model, notes, improved) =>
        inv.assistModel := model;
        inv.assistUsed := true;
        inv.assistNotes := notes;
        if |improved.items| > 0 {
          parsed := improved;
        }
    }

    // The two goroutines one after the other; Goroutines shows that their schedule does not matter.
    method JudgeWithAssist(inv: Invoice, x: Result, a: I.Assistant, judge: I.Judge)
      returns (parsed: Result, judgment: Option<Judgment>)
      modifies inv
      ensures I.Judged(inv.Row(), parsed, judgment) == I.JudgeWithAssist(old(inv.Row()), x, a, judge)
    {
      parsed, judgment := x, None;
      if judge.NoJudge? {
        return;
      }
      var weak := Incomplete(x);
      if a.NoAssistant? || !weak {
        judgment := I.JudgmentOf(x, judge.first);
        return;
      }
      parsed := ApplyAssist(inv, a, x);
      judgment := I.JudgmentOf(x, judge.first);
      var changed := I.ExtractChanged(x, parsed);
      if changed {
        judgment := I.JudgmentOf(parsed, judge.again);
      }
    }

    method ApplyCacheHit(j: Job, e: Cache.Entry, saved: bool) returns (ok: bool)
      requires j.hit == Some(e)
      modifies this, j, j.inv
      ensures ok == saved && j.Value() == old(j.Value()).(row := I.HitRow(old(j.inv.Row()), e), parsed := e.parsed)
      ensures updates == old(updates) + [j.inv.Row()]
    {
      j.parsed := e.parsed;
      j.inv.SetExtract(e.parsed);
      j.inv.verdict := e.judgment;
      j.inv.assistUsed := e.assistUsed;
      j.inv.assistNotes := e.assistNotes;
      j.inv.assistModel := e.assistModel;
      j.inv.status := I.Done;
      ok := Update(j.inv, saved);
    }

    // What StageJev does after the OpenRouter fallback.
    method JudgeJob(j: Job, a: I.Assistant, judge: I.Judge, now: int, saved: bool) returns (ok: bool)
      requires Valid()
      modifies this, j, j.inv, cache
      ensures var next := I.JudgeJob(old(j.Value()), a, judge);
        && j.Value() == next.job && updates == old(updates) + [next.job.row]
        && ok == (saved && next.job.row.status == I.Done)
        && cache.Contents() ==
           if ok then I.ShelfAfterDone(cfg, next.job, next.entry, old(cache.Contents()), now) else old(cache.Contents())
    {
      var parsed, judgment := JudgeWithAssist(j.inv, j.parsed, a, judge);
      if judgment.None? {
        Fail(j, I.JevCause, saved);
        return false;
      }
      j.inv.SetExtract(parsed);
      j.parsed := parsed;
      j.inv.verdict := judgment.value;
      j.inv.status := I.Done;
      ok := Update(j.inv, saved);
      if !ok {
        return;
      }
      cache.Set(j.text, I.EntryOf(j.Value()), now);
    }

    method StageJev(j: Job, openRouter: I.Engine, a: I.Assistant, judge: I.Judge, now: int, saved: bool)
      returns (ok: bool)
      requires Valid()
      modifies this, j, j.inv, cache
      ensures var next := I.StageJev(cfg, old(j.Value()), openRouter, a, judge);
        && j.Value() == next.job && updates == old(updates) + [next.job.row]
        && ok == (saved && next.job.row.status == I.Done)
        && cache.Contents() ==
           if ok then I.ShelfAfterDone(cfg, next.job, next.entry, old(cache.Contents()), now) else old(cache.Contents())
    {
      if j.hit.Some? {
        ok := ApplyCacheHit(j, j.hit.value, saved);
        return;
      }
      var read := ApplyOpenRouterOcr(j, openRouter);
      if !read {
        Fail(j, I.OcrCause, saved);
        return false;
      }
      ok := JudgeJob(j, a, judge, now, saved);
    }
  }
}
