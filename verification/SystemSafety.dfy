/** What holds of every job in every reachable state of the service.

    A job is seen through a `View`: its own state, its place in the pipeline and its three write calls. A step
    changes the view of at most one job, so the invariant is kept one view at a time. */
module SystemSafety {
  import opened Extract
  import opened Invoice
  import Cache
  import opened System
  import opened PipelineMoves
  import P = Pipeline
  import W = Store

  datatype View = View(call: P.CallPc, place: P.Place, busy: bool, cs: seq<W.CallPc>, rs: seq<seq<bool>>, st: JobState)

  function ViewOf(s: Sys, j: nat): View
    requires Sized(s) && j < |s.jobs|
  {
    View(s.p.calls[j], s.p.jobs[j].place, Busy(s.p, j), s.w.calls[3 * j..3 * j + 3], s.w.ran[3 * j..3 * j + 3],
        s.jobs[j])
  }

  const FINISHED := P.Gone(P.Finished)

  predicate InFlight(pc: W.CallPc) {
    pc != W.Idle && !pc.Returned?
  }

  // Written and waiting for nothing: marked as processing, its end not yet submitted.
  predicate Marked(v: View)
    requires |v.cs| == 3
  {
    v.cs[1] == DONE_OK && v.cs[2] == W.Idle
  }

  // What the store tells about the three calls.
  predicate RanOk(v: View) {
    && |v.cs| == |v.rs| == |v.st.asks| == 3
    && forall k :: 0 <= k < 3 ==>
         && |v.rs[k]| <= 1
         && (v.cs[k] == W.Idle ==> v.rs[k] == [])
         && (v.cs[k] == DONE_OK ==> v.rs[k] == [true])
  }

  predicate HttpOk(v: View)
    requires |v.cs| == 3
  {
    && (v.cs[0] == W.Idle <==> v.st.http == Arriving)
    && (v.cs[1] != W.Idle ==> v.cs[0] == DONE_OK && v.call.Returned?)
    && (v.cs[2] != W.Idle ==> v.cs[1] == DONE_OK && v.call == ACCEPTED)
    && (v.call != P.Calling ==> v.cs[0] == DONE_OK)
    && match v.st.http
       case Arriving => v.call == P.Calling
       case Creating => v.call == P.Calling
       case Queueing => v.cs[0] == DONE_OK && (v.cs[1] != W.Idle ==> v.call == ACCEPTED)
       case RollingBack => v.call.Returned? && v.call != ACCEPTED && v.cs[1] != W.Idle
       case Answered => v.call == P.Calling || v.call.Returned?
  }

  predicate StageOk(v: View)
    requires |v.cs| == 3
  {
    && (v.call != ACCEPTED ==> v.st.stage == Out && v.place == P.Nowhere)
    && (v.call == ACCEPTED ==> v.place != P.Nowhere)
    && (InFlight(v.cs[1]) && v.call == ACCEPTED ==> v.st.stage == Saving(0, AfterMarking))
    && (InFlight(v.cs[2]) ==> v.st.stage.Saving? && v.st.stage.after != AfterMarking)
    && (v.busy ==> v.place.With?)
    && (v.place == FINISHED ==> v.cs[2] == DONE_OK)
    && (v.st.stage.Out? <==> !v.busy)
    && match v.st.stage
       case Out =>
         && (v.place == P.InChan(0) ==> v.cs[1] == W.Idle && v.cs[2] == W.Idle)
         && ((v.place.InChan? && v.place.stage > 0) || v.place.With? ==> Marked(v))
       case In(i) => v.place.With? && v.place.stage == i < 3 &&
           (if i == 0 then v.cs[1] == W.Idle && v.cs[2] == W.Idle else Marked(v))
       case Saving(i, after) =>
         && v.place.With? && v.place.stage == i < 3
         && v.cs[Awaited(after)] != W.Idle
         && (after.AfterMarking? ==> i == 0 && v.cs[2] == W.Idle)
         && (after.AfterDone? ==> i == 2)
       case Back(i, ok) =>
         && v.place.With? && v.place.stage == i < 3
         && (ok ==> if i < 2 then Marked(v) else v.cs[2] == DONE_OK)
  }

  predicate Erred(pc: W.CallPc) {
    pc.Returned? && pc != DONE_OK
  }

  // An Update of the job has come back with an error.
  predicate UpdateFailed(v: View)
    requires |v.cs| == 3
  {
    v.call == ACCEPTED && (Erred(v.cs[1]) || Erred(v.cs[2]))
  }

  // Where a stage returns an error, or has, an Update returned one or the failure is stored.
  predicate FailOk(v: View)
    requires |v.cs| == |v.st.asks| == 3
  {
    (v.st.stage.Back? && !v.st.stage.ok) || (v.place.Gone? && v.place.fate.Failed?) ==>
      UpdateFailed(v) || (v.cs[2] == DONE_OK && v.st.asks[2].Put? && v.st.asks[2].row.status == Failed)
  }

  predicate HasEnd(ask: Ask) {
    ask.Put? && (ask.row.status == Done || ask.row.status == Failed)
  }

  // What has been submitted, and that an operation which has not run yet will write what was submitted.
  predicate AskOk(v: View)
    requires |v.cs| == |v.rs| == |v.st.asks| == 3
  {
    && v.st.asks[0] == (if v.cs[0] == W.Idle then Unasked else Put(NEW_ROW))
    && (v.cs[1] == W.Idle ==> v.st.asks[1] == Unasked)
    && (v.cs[1] != W.Idle ==> v.st.asks[1] == if v.call == ACCEPTED then Put(Mark(NEW_JOB).row) else Remove)
    && (if v.cs[2] == W.Idle then v.st.asks[2] == Unasked else HasEnd(v.st.asks[2]))
    && (forall k :: 0 <= k < 3 && v.st.asks[k].Put? && v.rs[k] == [] ==> v.st.asks[k].row == v.st.job.row)
    && (v.st.stage == Back(2, true) || v.place == FINISHED ==> v.st.asks[2].Put? && v.st.asks[2].row.status == Done)
    && (v.st.stage.Saving? && !v.st.stage.after.AfterMarking? ==>
          v.st.asks[2] == Put(v.st.job.row) &&
              v.st.job.row.status == if v.st.stage.after.AfterFailing? then Failed else Done)
  }

  function Ran(rs: seq<bool>, ask: Ask): seq<Ask> {
    if rs == [true] then [ask] else []
  }

  // What has been written follows from which of the submitted writes have run.
  predicate HistOk(v: View)
    requires |v.rs| == |v.st.asks| == 3
  {
    v.st.hist == Ran(v.rs[0], v.st.asks[0]) + Ran(v.rs[1], v.st.asks[1]) + Ran(v.rs[2], v.st.asks[2])
  }

  // How far the job's own data has got: nothing read yet,
  predicate Unread(v: View) {
    match v.st.stage
    case Out => (v.place.InChan? && v.place.stage <= 1) || (v.place.With? && v.place.stage == 0) || v.call != ACCEPTED
    case In(i) => i <= 1
    case Saving(_, after) => after.AfterMarking?
    case Back(i, ok) => i == 0 && ok
  }

  // or read by the OCR stage.
  predicate ReadAlready(v: View) {
    match v.st.stage
    case Out => (v.place.InChan? && v.place.stage == 2) || (v.place.With? && v.place.stage >= 1)
    case In(i) => i == 2
    case Saving(_, _) => false
    case Back(i, ok) => i == 1 && ok
  }

  // What the stages keep about jobs that have been read, rows handed over as done, and cache entries.
  datatype Facts = Facts(job: Job -> bool, row: Row -> bool, entry: (string, Cache.Entry) -> bool)

  ghost predicate NextFine(f: Facts, next: Next) {
    && next.Save?
    && (next.job.row.status == Failed || (next.job.row.status == Done && f.row(next.job.row)))
    && (next.entry.Some? ==> f.entry(next.job.text, next.entry.value))
  }

  ghost predicate DataOk(f: Facts, v: View)
    requires |v.cs| == |v.st.asks| == 3
  {
    && (Unread(v) ==> v.st.job == if v.call == ACCEPTED && v.cs[1] != W.Idle then Mark(NEW_JOB) else NEW_JOB)
    && (ReadAlready(v) ==> f.job(v.st.job))
    && (v.st.asks[2].Put? && v.st.asks[2].row.status == Done ==> f.row(v.st.asks[2].row))
    && (v.st.stage.Saving? && v.st.stage.after.AfterDone? && v.st.stage.after.entry.Some? ==>
          f.entry(v.st.job.text, v.st.stage.after.entry.value))
  }

  ghost predicate ViewInv(f: Facts, v: View) {
    RanOk(v) && HttpOk(v) && StageOk(v) && FailOk(v) && AskOk(v) && HistOk(v) && DataOk(f, v)
  }

  // Keeping it: one lemma for each way a view can change.

  lemma CallView(f: Facts, v: View, pc: P.CallPc)
    requires ViewInv(f, v) && v.st.http == Queueing && !v.call.Returned? && pc != P.Calling
    ensures ViewInv(f, v.(call := pc, place := if pc == ACCEPTED then P.InChan(0) else v.place))
  {
  }

  lemma ReceiveView(f: Facts, v: View, i: nat, w: nat)
    requires ViewInv(f, v) && v.place == P.InChan(i) && i < 3
    ensures ViewInv(f, v.(place := P.With(i, w), busy := true, st := v.st.(stage := In(i))))
  {
  }

  lemma ReturnView(f: Facts, v: View, place: P.Place)
    requires ViewInv(f, v) && v.st.stage.Back?
    requires place.Gone? || (v.st.stage.ok && v.st.stage.i < 2 && place == v.place)
    requires place == FINISHED ==> v.st.stage == Back(2, true)
    requires place.Gone? && place.fate.Failed? ==> !v.st.stage.ok
    ensures ViewInv(f, v.(place := place, busy := false, st := v.st.(stage := Out)))
  {
  }

  lemma SendView(f: Facts, v: View, place: P.Place)
    requires ViewInv(f, v) && v.place.With? && !v.busy
    requires (place.Gone? && place.fate.Dropped?) || (v.place.stage < 2 && place == P.InChan(v.place.stage + 1))
    ensures ViewInv(f, v.(place := place))
  {
  }

  // A step of a write call after its beginning.
  lemma WriteCallView(f: Facts, v: View, k: nat, pc: W.CallPc)
    requires ViewInv(f, v) && k < 3 && InFlight(v.cs[k]) && pc != W.Idle
    requires pc == DONE_OK ==> v.rs[k] == [true]
    ensures ViewInv(f, v.(cs := v.cs[k := pc]))
  {
  }

  // An operation running.
  function RunOf(v: View, k: nat, ok: bool): View
    requires |v.rs| == |v.st.asks| == 3 && k < 3
  {
    var wrote := if v.st.asks[k].Remove? then Remove else Put(v.st.job.row);
    v.(rs := v.rs[k := [ok]], st := v.st.(hist := if ok then v.st.hist + [wrote] else v.st.hist))
  }

  lemma RunHist(v: View, k: nat, ok: bool)
    requires RanOk(v) && HttpOk(v) && AskOk(v) && HistOk(v) && k < 3
    requires v.rs[k] == [] && v.cs[k] != W.Idle && v.cs[k] != DONE_OK
    ensures RanOk(RunOf(v, k, ok)) && HistOk(RunOf(v, k, ok))
  {
  }

  lemma RunView(f: Facts, v: View, k: nat, ok: bool)
    requires ViewInv(f, v) && k < 3 && v.rs[k] == [] && v.cs[k] != W.Idle && v.cs[k] != DONE_OK
    ensures ViewInv(f, RunOf(v, k, ok))
  {
    RunHist(v, k, ok);
  }

  // A call submitted.
  function AskOf(v: View, k: nat, st: JobState, ask: Ask): View
    requires |v.cs| == |st.asks| == 3 && k < 3
  {
    v.(cs := v.cs[k := W.Checking], st := st.(asks := st.asks[k := ask]))
  }

  lemma UploadView(f: Facts, v: View)
    requires ViewInv(f, v) && v.st.http == Arriving
    ensures ViewInv(f, AskOf(v, 0, v.st.(http := Creating, job := NEW_JOB), Put(NEW_ROW)))
  {
  }

  lemma RejectView(f: Facts, v: View)
    requires ViewInv(f, v) && v.st.http == Queueing && v.call.Returned? && v.call != ACCEPTED
    ensures ViewInv(f, AskOf(v, 1, v.st.(http := RollingBack), Remove))
  {
  }

  lemma AnswerView(f: Facts, v: View, http: HttpPc)
    requires ViewInv(f, v) && v.st.http != Arriving
    requires (http == Answered && (v.call == P.Calling || v.call.Returned?)) ||
        (v.st.http == Creating && v.cs[0] == DONE_OK && http == Queueing)
    ensures ViewInv(f, v.(st := v.st.(http := http)))
  {
  }

  lemma MarkView(f: Facts, v: View)
    requires ViewInv(f, v) && v.st.stage == In(0)
    ensures ViewInv(f, AskOf(v, 1, v.st.(job := Mark(v.st.job), stage := Saving(0, AfterMarking)),
        Put(Mark(v.st.job).row)))
  {
  }

  // The stage function is past its first wait, if it has one.
  predicate Ready(v: View, i: nat)
    requires |v.cs| == 3
  {
    (i > 0 && v.st.stage == In(i)) || (i == 0 && v.st.stage == Saving(0, AfterMarking) && v.cs[1] == DONE_OK)
  }

  lemma PassView(f: Facts, v: View, i: nat, job: Job)
    requires ViewInv(f, v) && i < 2 && Ready(v, i)
    requires if i == 0 then job == v.st.job else f.job(job)
    ensures ViewInv(f, v.(st := v.st.(job := job, stage := Back(i, true))))
  {
  }

  function SaveOf(v: View, i: nat, next: Next): View
    requires |v.cs| == |v.st.asks| == 3 && next.Save?
  {
    AskOf(v, 2, v.st.(job := next.job, stage := Saving(i, AfterOf(next))), Put(next.job.row))
  }

  lemma SaveControl(v: View, i: nat, next: Next)
    requires RanOk(v) && HttpOk(v) && StageOk(v) && AskOk(v) && HistOk(v) && i < 3 && Ready(v, i)
    requires next.Save? && (next.job.row.status == Failed || (next.job.row.status == Done && i == 2))
    ensures var v' := SaveOf(v, i, next);
      RanOk(v') && HttpOk(v') && StageOk(v') && FailOk(v') && AskOk(v') && HistOk(v')
  {
  }

  lemma SaveView(f: Facts, v: View, i: nat, next: Next)
    requires ViewInv(f, v) && Ready(v, i)
    requires NextFine(f, next) && (next.job.row.status == Done ==> i == 2)
    ensures ViewInv(f, SaveOf(v, i, next))
  {
    SaveControl(v, i, next);
  }

  lemma BackView(f: Facts, v: View, ok: bool)
    requires ViewInv(f, v) && v.st.stage.Saving? && v.cs[Awaited(v.st.stage.after)].Returned?
    requires ok <==> v.st.stage.after.AfterDone? && v.cs[2] == DONE_OK
    requires v.st.stage.after.AfterMarking? ==> v.cs[1] != DONE_OK
    ensures ViewInv(f, v.(st := v.st.(stage := Back(v.st.stage.i, ok))))
  {
  }
}
