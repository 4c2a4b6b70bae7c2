/** Whole runs of the service: the life of every invoice, what is stored, what is cached. */
module SystemTheorems {
  import opened Extract
  import opened Jev
  import opened ExplainTheorems
  import opened Invoice
  import opened InvoiceTheorems
  import opened StoreRefinement
  import opened System
  import opened SystemSafety
  import opened SystemInv
  import opened SystemStep
  import opened PipelineMoves
  import Cache
  import P = Pipeline
  import W = Store
  import PS = PipelineSafety
  import PT = PipelineTheorems
  import WS = StoreSafety

  ghost predicate Reachable(cfg: Config, says: Verdicts, s: Sys) {
    exists o: P.Options, jobs: nat, shuts: nat, closers: nat ::
      |o.workers| == |o.buffers| == P.STAGES && Reaches(cfg, says, Init(o, jobs, shuts, closers), s)
  }

  lemma Safe(cfg: Config, says: Verdicts, s: Sys)
    requires Reachable(cfg, says, s)
    ensures Inv(FactsOf(cfg, says), s)
  {
    var o: P.Options, jobs: nat, shuts: nat, closers: nat :|
      |o.workers| == |o.buffers| == P.STAGES && Reaches(cfg, says, Init(o, jobs, shuts, closers), s);
    InitInv(FactsOf(cfg, says), o, jobs, shuts, closers);
    ReachableInv(cfg, says, Init(o, jobs, shuts, closers), s);
  }

  // The life of an invoice, as the writes that took effect tell it.

  datatype Written = Stored(status: Status) | Deleted | Nothing

  function WrittenBy(ask: Ask): Written {
    match ask
    case Put(row) => Stored(row.status)
    case Remove => Deleted
    case Unasked => Nothing
  }

  function Story(hist: seq<Ask>): (r: seq<Written>)
    ensures |r| == |hist|
  {
    seq(|hist|, k requires 0 <= k < |hist| => WrittenBy(hist[k]))
  }

  predicate LifeOfAccepted(story: seq<Written>) {
    || story == []
    || story == [Stored(Queued)]
    || story == [Stored(Queued), Stored(Processing)]
    || story == [Stored(Queued), Stored(Processing), Stored(Done)]
    || story == [Stored(Queued), Stored(Processing), Stored(Failed)]
  }

  predicate LifeOfRejected(story: seq<Written>) {
    story == [] || story == [Stored(Queued)] || story == [Stored(Queued), Deleted]
  }

  lemma LifeOf(f: Facts, v: View)
    requires ViewInv(f, v)
    ensures if v.call == ACCEPTED then LifeOfAccepted(Story(v.st.hist)) else LifeOfRejected(Story(v.st.hist))
  {
    if v.rs[2] == [true] { assert v.cs[2] != W.Idle; }
    if v.rs[1] == [true] { assert v.cs[1] != W.Idle; }
  }

  /** For every invoice, what has been written is a prefix of queued, processing, and one of done and failed;
      or, for an upload the pipeline did not accept, of queued and deleted, and no stage has been called on it. */
  lemma Lifecycle(cfg: Config, says: Verdicts, s: Sys, j: nat)
    requires Reachable(cfg, says, s) && j < |s.jobs|
    ensures Sized(s)
    ensures s.p.calls[j] == ACCEPTED ==> LifeOfAccepted(Story(s.jobs[j].hist))
    ensures s.p.calls[j] != ACCEPTED ==> LifeOfRejected(Story(s.jobs[j].hist)) && s.p.jobs[j].trace == []
  {
    Safe(cfg, says, s);
    assert JobInv(FactsOf(cfg, says), s, j);
    LifeOf(FactsOf(cfg, says), ViewOf(s, j));
    assert PS.PlaceOk(s.p, j) && PS.LogOk(s.p, j);
  }

  predicate Over(hist: seq<Ask>) {
    hist != [] && (hist[|hist| - 1] == Remove || HasEnd(hist[|hist| - 1]))
  }

  lemma SettleHist(s: Sys, j: nat, i: nat, next: Next)
    requires Sized(s) && j < |s.jobs| && CanSettle(s, j, next)
    ensures |Settle(s, j, i, next).jobs| == |s.jobs|
    ensures forall j' :: 0 <= j' < |s.jobs| ==> Settle(s, j, i, next).jobs[j'].hist == s.jobs[j'].hist
  {
  }

  // A step leaves what has been written about an invoice, or writes one thing more.
  lemma HistGrows(cfg: Config, says: Verdicts, s: Sys, a: Action, j: nat)
    requires Enabled(cfg, says, s, a) && j < |s.jobs|
    ensures var s' := Apply(cfg, says, s, a); |s'.jobs| == |s.jobs| && s.jobs[j].hist <= s'.jobs[j].hist
  {
    match a
    case Pipe(x) =>
    case Write(x) =>
    case Http(k, x) =>
    case Stage(k, world) =>
      var i := s.jobs[k].stage.i;
      if i != 0 { SettleHist(s, k, i, NextOf(cfg, s, k, i, world)); }
    case Resume(k, world) =>
      if s.jobs[k].stage.after.AfterMarking? && s.w.calls[3 * k + 1] == DONE_OK {
        SettleHist(s, k, s.jobs[k].stage.i, AfterMark(s.jobs[k].job, world.prepared));
      }
  }

  lemma LifeEnds(story: seq<Written>, longer: seq<Written>)
    requires LifeOfAccepted(longer) || LifeOfRejected(longer)
    requires story != [] && story <= longer
    requires story[|story| - 1] == Deleted || story[|story| - 1] == Stored(Done) || story[|story| - 1] == Stored(Failed)
    ensures |story| == |longer|
  {
    assert story[|story| - 1] == longer[|story| - 1];
  }

  lemma OverStays(f: Facts, v: View, hist: seq<Ask>)
    requires ViewInv(f, v) && Over(hist) && hist <= v.st.hist
    ensures v.st.hist == hist
  {
    LifeOf(f, v);
    LifeEnds(Story(hist), Story(v.st.hist));
  }

  lemma OverStep(cfg: Config, says: Verdicts, s: Sys, a: Action, j: nat)
    requires Inv(FactsOf(cfg, says), s) && Enabled(cfg, says, s, a) && j < |s.jobs| && Over(s.jobs[j].hist)
    ensures var s' := Apply(cfg, says, s, a);
      Inv(FactsOf(cfg, says), s') && j < |s'.jobs| && s'.jobs[j].hist == s.jobs[j].hist
  {
    HistGrows(cfg, says, s, a, j);
    InvStep(cfg, says, s, a);
    var s' := Apply(cfg, says, s, a);
    assert JobInv(FactsOf(cfg, says), s', j);
    OverStays(FactsOf(cfg, says), ViewOf(s', j), s.jobs[j].hist);
  }

  lemma {:induction false} OverAt(cfg: Config, says: Verdicts, xs: seq<Sys>, run: seq<Action>, n: nat, j: nat)
    requires Steps(cfg, says, xs, run) && n <= |run| && Inv(FactsOf(cfg, says), xs[0])
    requires j < |xs[0].jobs| && Over(xs[0].jobs[j].hist)
    ensures Inv(FactsOf(cfg, says), xs[n]) && j < |xs[n].jobs| && xs[n].jobs[j].hist == xs[0].jobs[j].hist
  {
    if n > 0 {
      OverAt(cfg, says, xs, run, n - 1, j);
      var a := run[n - 1];
      OverStep(cfg, says, xs[n - 1], a, j);
    }
  }

  /** Once an invoice is done, failed or deleted, no later step of any run writes about it again: its row
      stays as it is. */
  lemma EndIsFinal(cfg: Config, says: Verdicts, s: Sys, s': Sys, j: nat)
    requires Reachable(cfg, says, s) && j < |s.jobs| && Over(s.jobs[j].hist) && Reaches(cfg, says, s, s')
    ensures j < |s'.jobs| && s'.jobs[j].hist == s.jobs[j].hist
    ensures (j in s'.db <==> j in s.db) && (j in s.db ==> s'.db[j] == s.db[j])
  {
    Safe(cfg, says, s);
    var xs, run :| Steps(cfg, says, xs, run) && xs[0] == s && xs[|run|] == s';
    OverAt(cfg, says, xs, run, |run|, j);
    assert JobInv(FactsOf(cfg, says), s, j);
    assert JobInv(FactsOf(cfg, says), s', j);
  }

  // What a late write saves.

  // The operation as it was submitted.
  function Submitted(s: Sys, c: nat): Op<Row>
    requires Sized(s) && c < |s.w.calls|
  {
    match s.jobs[c / 3].asks[c % 3]
    case Put(row) => if c % 3 == 0 then Create(c / 3, row) else Op.Save(c / 3, row)
    case _ => Delete(c / 3)
  }

  lemma PendingAsk(f: Facts, v: View, k: nat)
    requires ViewInv(f, v) && k < 3 && v.rs[k] == [] && v.cs[k] != W.Idle
    ensures match v.st.asks[k]
      case Unasked => false
      case Put(row) => row == v.st.job.row
      case Remove => true
  {
  }

  lemma SubmittedIs(s: Sys, c: nat)
    requires Sized(s) && c < |s.w.calls|
    requires s.jobs[c / 3].asks[c % 3] != Unasked
    requires s.jobs[c / 3].asks[c % 3].Put? ==> s.jobs[c / 3].asks[c % 3].row == s.jobs[c / 3].job.row
    ensures OpOf(s, c) == Submitted(s, c)
  {
  }

  lemma RunningCall(f: Facts, s: Sys, ok: bool)
    requires Inv(f, s) && W.WriteEnabled(s.w, W.Run(ok))
    ensures s.w.writer.call < |s.w.calls|
    ensures var j, k := s.w.writer.call / 3, s.w.writer.call % 3;
      ViewInv(f, ViewOf(s, j)) && ViewOf(s, j).rs[k] == [] && ViewOf(s, j).cs[k] != W.Idle
  {
    var c := s.w.writer.call;
    RunTells(s.w, ok);
    assert JobInv(f, s, c / 3);
    assert ViewOf(s, c / 3).cs[c % 3] == s.w.calls[c] && ViewOf(s, c / 3).rs[c % 3] == s.w.ran[c];
  }

  lemma RunningIsPending(f: Facts, s: Sys, ok: bool)
    requires Inv(f, s) && W.WriteEnabled(s.w, W.Run(ok))
    ensures var c := s.w.writer.call;
      c < |s.w.calls| && OpOf(s, c) == Submitted(s, c) && s.jobs[c / 3].asks[c % 3] != Unasked
  {
    var c := s.w.writer.call;
    RunningCall(f, s, ok);
    PendingAsk(f, ViewOf(s, c / 3), c % 3);
    SubmittedIs(s, c);
  }

  /** Whenever an operation runs, however late and whether or not its caller still waits, it writes the
      values the invoice had when it was submitted. */
  lemma LateWriteIsSnapshot(cfg: Config, says: Verdicts, s: Sys, ok: bool)
    requires Reachable(cfg, says, s) && W.WriteEnabled(s.w, W.Run(ok))
    ensures Sized(s) && s.w.writer.call < |s.w.calls|
    ensures OpOf(s, s.w.writer.call) == Submitted(s, s.w.writer.call)
    ensures s.jobs[s.w.writer.call / 3].asks[s.w.writer.call % 3] != Unasked
  {
    Safe(cfg, says, s);
    RunningIsPending(FactsOf(cfg, says), s, ok);
  }

  lemma FailedStage(f: Facts, v: View)
    requires ViewInv(f, v) && UpdateFailed(v)
    ensures !v.st.stage.In? && v.st.http != Arriving
    ensures v.st.stage.Saving? ==> v.cs[Awaited(v.st.stage.after)] != DONE_OK
  {
  }

  lemma FailedJob(f: Facts, s: Sys, j: nat)
    requires Inv(f, s) && j < |s.jobs| && UpdateFailed(ViewOf(s, j))
    ensures !s.jobs[j].stage.In? && s.jobs[j].http != Arriving
    ensures s.jobs[j].stage.Saving? ==> s.w.calls[3 * j + Awaited(s.jobs[j].stage.after)] != DONE_OK
  {
    var v := ViewOf(s, j);
    assert ViewInv(f, v) by { assert JobInv(f, s, j); }
    assert v.cs[1] == s.w.calls[3 * j + 1] && v.cs[2] == s.w.calls[3 * j + 2];
    FailedStage(f, v);
  }

  // Only the job's own stage code, and its upload, change what it carries.
  lemma ResumeChanges(cfg: Config, s: Sys, k: nat, world: World, j: nat)
    requires Sized(s) && ResumeEnabled(s, k, world) && j < |s.jobs|
    requires s.jobs[j].stage.Saving? ==> s.w.calls[3 * j + Awaited(s.jobs[j].stage.after)] != DONE_OK
    ensures var s' := ResumeApply(cfg, s, k, world); |s'.jobs| == |s.jobs| && s'.jobs[j].job == s.jobs[j].job
  {
  }

  lemma JobChangesBy(cfg: Config, says: Verdicts, s: Sys, a: Action, j: nat)
    requires Enabled(cfg, says, s, a) && j < |s.jobs|
    requires !s.jobs[j].stage.In? && s.jobs[j].http != Arriving
    requires s.jobs[j].stage.Saving? ==> s.w.calls[3 * j + Awaited(s.jobs[j].stage.after)] != DONE_OK
    ensures var s' := Apply(cfg, says, s, a); |s'.jobs| == |s.jobs| && s'.jobs[j].job == s.jobs[j].job
  {
    match a
    case Pipe(x) =>
    case Write(x) =>
    case Http(k, x) =>
    case Stage(k, world) => assert k != j;
    case Resume(k, world) => ResumeChanges(cfg, s, k, world, j);
  }

  lemma FailedStep(cfg: Config, says: Verdicts, s: Sys, a: Action, j: nat)
    requires Inv(FactsOf(cfg, says), s) && Enabled(cfg, says, s, a) && j < |s.jobs| && UpdateFailed(ViewOf(s, j))
    ensures var s' := Apply(cfg, says, s, a); |s'.jobs| == |s.jobs| && s'.jobs[j].job == s.jobs[j].job
  {
    FailedJob(FactsOf(cfg, says), s, j);
    JobChangesBy(cfg, says, s, a, j);
  }

  // What a call of Enqueue or of the store has returned stays.

  lemma WriteStays(w: W.State, a: W.Action, c: nat)
    requires WS.Inv(w) && W.Enabled(w, a) && c < |w.calls| && w.calls[c].Returned?
    ensures var w' := W.Apply(w, a); |w'.calls| == |w.calls| && w'.calls[c] == w.calls[c]
  {
    match a
    case Call(k, x) => WS.CallControl(w, k, x);
    case Close(d, x) => WS.CloseControl(w, d, x);
    case Write(_) =>
  }

  lemma CallStays(p: P.State, a: P.Action, k: nat)
    requires PS.Inv(p) && P.Enabled(p, a) && k < |p.calls| && p.calls[k].Returned?
    ensures var p' := P.Apply(p, a); |p'.calls| == |p.calls| && p'.calls[k] == p.calls[k]
  {
    match a
    case Call(n, x) => CallMoves(p, n, x, k);
    case Work(i, w, x) => WorkSizes(p, i, w, x);
    case _ => QuietMoves(p, a, k);
  }

  lemma SettleStays(s: Sys, j: nat, i: nat, next: Next, c: nat)
    requires Sized(s) && j < |s.jobs| && CanSettle(s, j, next) && c < |s.w.calls| && s.w.calls[c].Returned?
    ensures var s' := Settle(s, j, i, next); s'.p == s.p && |s'.w.calls| == |s.w.calls| && s'.w.calls[c] == s.w.calls[c]
  {
  }

  lemma StageStays(cfg: Config, says: Verdicts, s: Sys, j: nat, world: World, c: nat)
    requires Sized(s) && StageEnabled(cfg, says, s, j, world) && c < |s.w.calls| && s.w.calls[c].Returned?
    ensures var s' := StageApply(cfg, says, s, j, world);
      s'.p == s.p && |s'.w.calls| == |s.w.calls| && s'.w.calls[c] == s.w.calls[c]
  {
    var i := s.jobs[j].stage.i;
    if i != 0 { SettleStays(s, j, i, NextOf(cfg, s, j, i, world), c); }
  }

  lemma ResumeStays(cfg: Config, s: Sys, j: nat, world: World, c: nat)
    requires Sized(s) && ResumeEnabled(s, j, world) && c < |s.w.calls| && s.w.calls[c].Returned?
    ensures var s' := ResumeApply(cfg, s, j, world);
      s'.p == s.p && |s'.w.calls| == |s.w.calls| && s'.w.calls[c] == s.w.calls[c]
  {
    if s.jobs[j].stage.after.AfterMarking? && s.w.calls[3 * j + 1] == DONE_OK {
      SettleStays(s, j, s.jobs[j].stage.i, AfterMark(s.jobs[j].job, world.prepared), c);
    }
  }

  lemma HttpStays(s: Sys, j: nat, x: HttpStep, c: nat)
    requires Sized(s) && HttpEnabled(s, j, x) && c < |s.w.calls| && s.w.calls[c].Returned?
    ensures var s' := HttpApply(s, j, x); s'.p == s.p && |s'.w.calls| == |s.w.calls| && s'.w.calls[c] == s.w.calls[c]
  {
  }

  lemma ReturnedStays(cfg: Config, says: Verdicts, s: Sys, a: Action, c: nat)
    requires Inv(FactsOf(cfg, says), s) && Enabled(cfg, says, s, a) && c < |s.w.calls| && s.w.calls[c].Returned?
    ensures var s' := Apply(cfg, says, s, a); |s'.w.calls| == |s.w.calls| && s'.w.calls[c] == s.w.calls[c]
  {
    match a
    case Pipe(x) => PipeSized(s, x);
    case Write(x) => WriteStays(s.w, x, c);
    case Http(k, x) => HttpStays(s, k, x, c);
    case Stage(k, world) => StageStays(cfg, says, s, k, world, c);
    case Resume(k, world) => ResumeStays(cfg, s, k, world, c);
  }

  // Only its own steps move the pipeline.
  lemma PipelineRests(cfg: Config, says: Verdicts, s: Sys, a: Action)
    requires Enabled(cfg, says, s, a) && !a.Pipe?
    ensures Apply(cfg, says, s, a).p == s.p
  {
    match a
    case Write(x) =>
    case Http(j, x) =>
    case Stage(j, world) =>
    case Resume(j, world) =>
    case Pipe(_) =>
  }

  lemma AcceptedStays(cfg: Config, says: Verdicts, s: Sys, a: Action, j: nat)
    requires Inv(FactsOf(cfg, says), s) && Enabled(cfg, says, s, a) && j < |s.jobs| && s.p.calls[j] == ACCEPTED
    ensures var s' := Apply(cfg, says, s, a); |s'.p.calls| == |s.p.calls| && s'.p.calls[j] == ACCEPTED
  {
    if a.Pipe? { CallStays(s.p, a.a, j); } else { PipelineRests(cfg, says, s, a); }
  }

  // An Update of job j has come back with an error.
  predicate UpdateErred(s: Sys, j: nat) {
    Sized(s) && j < |s.jobs| && UpdateFailed(ViewOf(s, j))
  }

  // The same, by the calls of the store.
  lemma UpdateErredBy(s: Sys, j: nat)
    requires Sized(s) && j < |s.jobs|
    ensures UpdateErred(s, j) <==>
            (s.p.calls[j] == ACCEPTED && (Erred(s.w.calls[3 * j + 1]) || Erred(s.w.calls[3 * j + 2])))
  {
    var v := ViewOf(s, j);
    assert v.cs[1] == s.w.calls[3 * j + 1] && v.cs[2] == s.w.calls[3 * j + 2];
  }

  lemma FailedStays(cfg: Config, says: Verdicts, s: Sys, a: Action, j: nat)
    requires Inv(FactsOf(cfg, says), s) && Enabled(cfg, says, s, a) && UpdateErred(s, j)
    requires Sized(Apply(cfg, says, s, a)) && |Apply(cfg, says, s, a).jobs| == |s.jobs|
    ensures UpdateErred(Apply(cfg, says, s, a), j)
  {
    UpdateErredBy(s, j);
    var k := if Erred(s.w.calls[3 * j + 1]) then 1 else 2;
    ReturnedStays(cfg, says, s, a, 3 * j + k);
    AcceptedStays(cfg, says, s, a, j);
    UpdateErredBy(Apply(cfg, says, s, a), j);
  }

  lemma FrozenStep(cfg: Config, says: Verdicts, s: Sys, a: Action, j: nat)
    requires Inv(FactsOf(cfg, says), s) && Enabled(cfg, says, s, a) && UpdateErred(s, j)
    ensures var s' := Apply(cfg, says, s, a);
      Inv(FactsOf(cfg, says), s') && UpdateErred(s', j) && s'.jobs[j].job == s.jobs[j].job
  {
    FailedStep(cfg, says, s, a, j);
    InvStep(cfg, says, s, a);
    FailedStays(cfg, says, s, a, j);
  }

  lemma {:induction false} FrozenAt(cfg: Config, says: Verdicts, xs: seq<Sys>, run: seq<Action>, n: nat, j: nat)
    requires Steps(cfg, says, xs, run) && n <= |run| && Inv(FactsOf(cfg, says), xs[0]) && UpdateErred(xs[0], j)
    ensures Inv(FactsOf(cfg, says), xs[n]) && UpdateErred(xs[n], j) && xs[n].jobs[j].job == xs[0].jobs[j].job
  {
    if n > 0 {
      FrozenAt(cfg, says, xs, run, n - 1, j);
      var a := run[n - 1];
      FrozenStep(cfg, says, xs[n - 1], a, j);
    }
  }

  /** After an Update has returned an error, nothing that happens in the rest of any run changes the invoice
      or what its job carries. */
  lemma FailedUpdateFreezes(cfg: Config, says: Verdicts, s: Sys, s': Sys, j: nat)
    requires Reachable(cfg, says, s) && UpdateErred(s, j) && Reaches(cfg, says, s, s')
    ensures j < |s'.jobs| && s'.jobs[j].job == s.jobs[j].job
  {
    Safe(cfg, says, s);
    var xs, run :| Steps(cfg, says, xs, run) && xs[0] == s && xs[|run|] == s';
    FrozenAt(cfg, says, xs, run, |run|, j);
  }

  // What is stored.

  lemma StoredDone(f: Facts, s: Sys, j: nat)
    requires Inv(f, s) && j in s.db && s.db[j].status == Done
    ensures f.row(s.db[j])
  {
    assert JobInv(f, s, j);
    var v := ViewOf(s, j);
    assert v.st.hist != [] && s.db[j] == v.st.hist[|v.st.hist| - 1].row;
    DoneIsLast(f, v);
  }

  /** A row stored as done is coherent, on every path that led to it. */
  lemma StoredDoneIsCoherent(cfg: Config, says: Verdicts, s: Sys, j: nat)
    requires Reachable(cfg, says, s) && j in s.db && s.db[j].status == Done
    ensures Coherent(says, s.db[j])
  {
    Safe(cfg, says, s);
    StoredDone(FactsOf(cfg, says), s, j);
  }

  lemma DoneIsLast(f: Facts, v: View)
    requires ViewInv(f, v) && v.st.hist != []
    ensures var last := v.st.hist[|v.st.hist| - 1];
      last.Put? && last.row.status == Done ==> last == v.st.asks[2]
  {
  }

  /** So what a reader of a done row sees hangs together: confirmed items mean no review and totals within
      five cents, and the explanation agrees with the verdict. */
  lemma StoredDonePromises(cfg: Config, says: Verdicts, s: Sys, j: nat)
    requires Reachable(cfg, says, s) && j in s.db && s.db[j].status == Done
    ensures var r := s.db[j];
      var a := ExplainSpec(r.verdict, r.estimatedTotal, r.computedItemsTotal);
      && r.verdict.itemsConfirmed == !r.verdict.needsReview
      && (r.verdict.itemsConfirmed ==> Extract.Abs(r.estimatedTotal - r.computedItemsTotal) <= TOTAL_DELTA)
      && (r.verdict.needsReview <==> exists id :: id in a.determinants && id != "effective_routing")
      && Distinct(a.determinants)
  {
    StoredDoneIsCoherent(cfg, says, s, j);
    var r := s.db[j];
    CoherentPromises(says, r);
    ReviewIsExplained(r.verdict, r.estimatedTotal, r.computedItemsTotal);
    DeterminantsDistinct(r.verdict, r.estimatedTotal, r.computedItemsTotal);
  }

  lemma EndedView(f: Facts, v: View)
    requires ViewInv(f, v)
    requires v.place == FINISHED || (v.place.Gone? && v.place.fate.Failed? && !UpdateFailed(v))
    ensures v.st.hist != [] && v.st.hist[|v.st.hist| - 1].Put?
    ensures v.st.hist[|v.st.hist| - 1].row.status == if v.place == FINISHED then Done else Failed
  {
    assert v.rs[2] == [true];
  }

  lemma EndedJob(f: Facts, s: Sys, j: nat)
    requires Inv(f, s) && j < |s.jobs|
    ensures s.p.jobs[j].place == FINISHED ==> j in s.db && s.db[j].status == Done
    ensures s.p.jobs[j].place.Gone? && s.p.jobs[j].place.fate.Failed? ==>
              UpdateErred(s, j) || (j in s.db && s.db[j].status == Failed)
  {
    assert JobInv(f, s, j);
    var v := ViewOf(s, j);
    if v.place == FINISHED || (v.place.Gone? && v.place.fate.Failed? && !UpdateFailed(v)) { EndedView(f, v); }
  }

  /** The table holds an invoice exactly as it was written last; a job that has finished is stored as done,
      and one that has failed in a stage is stored as failed unless an Update of it returned an error. */
  lemma TableIsLastWrite(cfg: Config, says: Verdicts, s: Sys, j: nat)
    requires Reachable(cfg, says, s) && j < |s.jobs|
    ensures RowIs(s.db, j, s.jobs[j].hist)
    ensures Sized(s) && (s.p.jobs[j].place == FINISHED ==> j in s.db && s.db[j].status == Done)
    ensures s.p.jobs[j].place.Gone? && s.p.jobs[j].place.fate.Failed? ==>
              UpdateErred(s, j) || (j in s.db && s.db[j].status == Failed)
  {
    Safe(cfg, says, s);
    assert JobInv(FactsOf(cfg, says), s, j);
    EndedJob(FactsOf(cfg, says), s, j);
  }

  /** Graceful shutdown, end to end: when Shutdown has returned without the hard cancel, every accepted
      invoice is stored as done or as failed, unless one of its Updates returned an error; it is stored as
      done exactly if its job has finished. */
  lemma ShutdownStoresAll(cfg: Config, says: Verdicts, s: Sys, h: nat, j: nat)
    requires Reachable(cfg, says, s) && h < |s.p.shuts| && s.p.shuts[h] == P.ShutReturned && !s.p.baseDone
    requires j < |s.p.calls| && s.p.calls[j] == ACCEPTED
    ensures Sized(s)
    ensures s.p.jobs[j].place == FINISHED || UpdateErred(s, j) || (j in s.db && s.db[j].status == Failed)
    ensures !UpdateErred(s, j) ==>
              j in s.db && s.db[j].status == if s.p.jobs[j].place == FINISHED then Done else Failed
  {
    Safe(cfg, says, s);
    PT.DrainedJob(s.p, h, j);
    EndedJob(FactsOf(cfg, says), s, j);
  }

  // The cache.

  /** In every reachable state each entry is a judgment of its own text; where the parse of the text is
      complete the entry holds exactly that parse, a judgment of it, and no trace of the assistant. */
  lemma CacheIsGood(cfg: Config, says: Verdicts, s: Sys)
    requires Reachable(cfg, says, s)
    ensures ShelfOk(cfg, says, s.shelf)
  {
    Safe(cfg, says, s);
    assert forall t :: t in s.shelf.entries ==> FactsOf(cfg, says).entry(t, s.shelf.entries[t]);
  }

  /** A hit is transparent: for a text that needs no escalation and a deterministic judge, the row a job with
      a hit hands to the store is the row it would have handed over without the cache. */
  lemma HitStoresFreshRow(cfg: Config, says: Verdicts, s: Sys, j: nat, world: World)
    requires Reachable(cfg, says, s) && j < |s.jobs| && s.jobs[j].stage == In(2) && s.jobs[j].job.hit.Some?
    requires Deterministic(says) && world.judge.Judge? && world.judge.first.Some?
    requires var job := s.jobs[j].job;
      && !NeedsEscalate(job.text, ParseSpec(cfg.lx, job.text))
      && Honest(cfg, says, job.(hit := None), world.openRouter, world.assistant, world.judge)
    ensures var job := s.jobs[j].job;
      NextOf(cfg, s, j, 2, world).job.row ==
      StageJev(cfg, job.(hit := None), world.openRouter, world.assistant, world.judge).job.row
  {
    Safe(cfg, says, s);
    assert JobInv(FactsOf(cfg, says), s, j);
    assert FactsOf(cfg, says).job(s.jobs[j].job);
    HitIsFreshRun(cfg, says, s.jobs[j].job, world.openRouter, world.assistant, world.judge);
  }

  // The store and the pipeline together.

  lemma OpenForStages(f: Facts, s: Sys, j: nat, k: nat)
    requires Inv(f, s) && j < |s.jobs| && (k == 1 || k == 2)
    ensures s.p.calls[j] == ACCEPTED ==> s.w.calls[3 * j + k] != W.Returned(W.ErrClosed)
  {
    assert JobInv(f, s, j);
    assert ViewOf(s, j).cs[k] == s.w.calls[3 * j + k];
  }

  /** No stage ever gets ErrClosed from the store. */
  lemma StagesNeverSeeClosed(cfg: Config, says: Verdicts, s: Sys, j: nat, k: nat)
    requires Reachable(cfg, says, s) && j < |s.jobs| && (k == 1 || k == 2)
    ensures Sized(s)
    ensures s.p.calls[j] == ACCEPTED ==> s.w.calls[3 * j + k] != W.Returned(W.ErrClosed)
  {
    Safe(cfg, says, s);
    OpenForStages(FactsOf(cfg, says), s, j, k);
  }

  // The write a stage would submit next has not been submitted.
  lemma NothingAsked(f: Facts, s: Sys, j: nat)
    requires Inv(f, s) && j < |s.jobs|
    ensures var stage := s.jobs[j].stage;
      && (stage.In? ==> stage.i < 3 && CanAsk(s, j, 2) && (stage.i == 0 ==> CanAsk(s, j, 1)))
      && (stage.Saving? && stage.after.AfterMarking? ==> CanAsk(s, j, 2))
  {
    assert JobInv(f, s, j);
    var v := ViewOf(s, j);
    assert v.cs[1] == s.w.calls[3 * j + 1] && v.cs[2] == s.w.calls[3 * j + 2];
    assert |s.w.replies| == |s.w.calls|;
  }

  /** Nothing but the store keeps a stage waiting: a stage function that has been called can run to its first
      Update or return whatever the world answers, and one whose Update has returned can go on. */
  lemma StagesMove(cfg: Config, says: Verdicts, s: Sys, j: nat, world: World)
    requires Reachable(cfg, says, s) && j < |s.jobs|
    requires s.jobs[j].stage == In(2) ==>
        Honest(cfg, says, s.jobs[j].job, world.openRouter, world.assistant, world.judge)
    ensures s.jobs[j].stage.In? ==> Enabled(cfg, says, s, Stage(j, world))
    ensures Sized(s)
    ensures s.jobs[j].stage.Saving? && s.w.calls[3 * j + Awaited(s.jobs[j].stage.after)].Returned? ==>
              Enabled(cfg, says, s, Resume(j, world))
  {
    Safe(cfg, says, s);
    NothingAsked(FactsOf(cfg, says), s, j);
  }
}
