/** The cache within the service: where its entries are used and where they come from. */
module SystemCache {
  import opened Extract
  import opened Invoice
  import opened InvoiceTheorems
  import opened System
  import opened SystemInv
  import opened SystemStep
  import opened SystemTheorems
  import Cache

  /** The OCR stage hands over the entry the cache has for the text it has read, */
  lemma OcrUsesCache(cfg: Config, says: Verdicts, s: Sys, j: nat, world: World)
    requires Reachable(cfg, says, s) && Enabled(cfg, says, s, Stage(j, world)) && s.jobs[j].stage == In(1)
    requires Apply(cfg, says, s, Stage(j, world)).jobs[j].stage == Back(1, true)
    ensures var job := Apply(cfg, says, s, Stage(j, world)).jobs[j].job;
      job.hit == Cache.Found(cfg.cache, s.shelf, job.text, world.now)
  {
    Safe(cfg, says, s);
    ReadyForOcr(FactsOf(cfg, says), s, j);
  }

  /** and when the store has taken a fresh result, the cache finds it. */
  lemma StoredDoneIsCached(cfg: Config, says: Verdicts, s: Sys, j: nat, world: World, en: Cache.Entry)
    requires Reachable(cfg, says, s) && Enabled(cfg, says, s, Resume(j, world)) && cfg.cache.enabled
    requires s.jobs[j].stage.after == AfterDone(Some(en)) && s.w.calls[3 * j + 2] == DONE_OK
    ensures Cache.Found(cfg.cache, Apply(cfg, says, s, Resume(j, world)).shelf, s.jobs[j].job.text, world.now) ==
            Some(en.(createdAt := world.now))
  {
  }
}
