/** The whole service: uploads, the pipeline, the stages, the store and the cache, in one transition system.

    Each upload is a job; job j's invoice has id j.  The pipeline and the store are the machines of their own
    modules and keep their own steps; what is added here is what a step of one needs of the others, and what
    the code between them does.  Write call 3*j + k of the store is the k-th write about invoice j:
    0 creates it, 1 marks it as processing or rolls it back, 2 stores its end. */
module System {
  import opened Extract
  import opened Invoice
  import opened InvoiceTheorems
  import opened StoreRefinement
  import Cache
  import P = Pipeline
  import W = Store

  // Service.Enqueue.
  datatype HttpPc = Arriving | Creating | Queueing | RollingBack | Answered

  // What a stage does when its Update has returned.
  datatype After = AfterMarking | AfterFailing | AfterDone(entry: Option<Cache.Entry>)

  // Where the stage function of a job stands: not running, called, waiting for the store, about to return.
  datatype StagePc = Out | In(i: nat) | Saving(i: nat, after: After) | Back(i: nat, ok: bool)

  // A write as it was submitted, with the values the invoice had then.
  datatype Ask = Unasked | Put(row: Row) | Remove

  // `hist` is what the writes that took effect have written, in order.
  datatype JobState = JobState(http: HttpPc, stage: StagePc, job: Job, asks: seq<Ask>, hist: seq<Ask>)

  datatype Sys = Sys(p: P.State, w: W.State, jobs: seq<JobState>, db: Table<Row>, shelf: Cache.Shelf)

  // Everything the outside world decides in one piece of stage code.
  datatype World = World(
    prepared: bool, tess: Engine, ollama: Engine, openRouter: Engine, assistant: Assistant, judge: Judge, now: int)

  datatype HttpStep = Upload | SeeCreated | SeeCreateFailed | SeeAccepted | SeeRejected | SeeRolledBack

  datatype Action =
    | Pipe(a: P.Action)
    | Write(x: W.Action)
    | Http(j: nat, http: HttpStep)
    | Stage(j: nat, world: World)   // from the call of the stage function to its first Update or return
    | Resume(j: nat, world: World)  // from the return of an Update on

  const DONE_OK := W.Returned(W.Own(true))

  function Init(o: P.Options, jobs: nat, shuts: nat, closers: nat): Sys
    requires |o.workers| == |o.buffers| == P.STAGES
  {
    Sys(P.Init(o, jobs, shuts), W.Init(3 * jobs, closers),
        seq(jobs, _ => JobState(Arriving, Out, NEW_JOB, [Unasked, Unasked, Unasked], [])), map[], Cache.EMPTY)
  }

  predicate Sized(s: Sys) {
    && |s.p.calls| == |s.p.jobs| == |s.jobs| && |s.p.stages| == P.STAGES
    && |s.w.calls| == |s.w.ran| == 3 * |s.jobs|
    && forall j :: 0 <= j < |s.jobs| ==> |s.jobs[j].asks| == 3
  }

  function SetJob(s: Sys, j: nat, st: JobState): Sys
    requires j < |s.jobs|
  {
    s.(jobs := s.jobs[j := st])
  }

  // Pipeline steps.

  predicate PipeEnabled(s: Sys, a: P.Action)
    requires Sized(s)
  {
    P.Enabled(s.p, a) &&
    match a
    case Call(k, _) => s.jobs[k].http == Queueing
    case Work(i, w, Fail) => s.jobs[s.p.stages[i].workers[w].job].stage == Back(i, false)
    case Work(i, w, Succeed) => s.jobs[s.p.stages[i].workers[w].job].stage == Back(i, true)
    case _ => true
  }

  function PipeApply(s: Sys, a: P.Action): Sys
    requires Sized(s) && PipeEnabled(s, a)
  {
    var s' := s.(p := P.Apply(s.p, a));
    match a
    case Work(i, _, Receive) =>
      var j := s.p.stages[i].buf[0];
      SetJob(s', j, s.jobs[j].(stage := In(i)))
    case Work(i, w, Fail) =>
      var j := s.p.stages[i].workers[w].job;
      SetJob(s', j, s.jobs[j].(stage := Out))
    case Work(i, w, Succeed) =>
      var j := s.p.stages[i].workers[w].job;
      SetJob(s', j, s.jobs[j].(stage := Out))
    case _ => s'
  }

  // Store steps. The calls themselves begin in Http, Stage and Resume.

  // An operation shares the invoice with its caller: it writes the values it finds when it runs.
  function OpOf(s: Sys, c: nat): Op<Row>
    requires Sized(s) && c < |s.w.calls|
  {
    var j, k := c / 3, c % 3;
    if s.jobs[j].asks[k].Remove? then Delete(j)
    else if k == 0 then Create(j, s.jobs[j].job.row)
    else Op.Save(j, s.jobs[j].job.row)
  }

  // cmd/api: Close comes after Shutdown.
  predicate WriteStepEnabled(s: Sys, x: W.Action)
    requires Sized(s)
  {
    W.Enabled(s.w, x) &&
    match x
    case Call(_, Begin) => false
    case Close(_, CAcquire) => exists h :: 0 <= h < |s.p.shuts| && s.p.shuts[h] == P.ShutReturned
    case Write(Run(ok)) => Allowed(s.db, OpOf(s, s.w.writer.call), ok)
    case _ => true
  }

  function WriteStepApply(s: Sys, x: W.Action): Sys
    requires Sized(s) && WriteStepEnabled(s, x)
  {
    var s' := s.(w := W.Apply(s.w, x));
    match x
    case Write(Run(ok)) =>
      var op := OpOf(s, s.w.writer.call);
      var st := s.jobs[op.id];
      var wrote := if op.Delete? then Remove else Put(st.job.row);
      SetJob(s', op.id, st.(hist := if ok then st.hist + [wrote] else st.hist)).(db := Effect(s.db, op, ok))
    case _ => s'
  }

  // A caller submits write k about invoice j.

  predicate CanAsk(s: Sys, j: nat, k: nat) {
    W.CallEnabled(s.w, 3 * j + k, W.Begin)
  }

  function AskFor(s: Sys, j: nat, k: nat, st: JobState, ask: Ask): Sys
    requires Sized(s) && j < |s.jobs| && k < 3 && |st.asks| == 3 && CanAsk(s, j, k)
  {
    SetJob(s, j, st.(asks := st.asks[k := ask])).(w := W.CallApply(s.w, 3 * j + k, W.Begin))
  }

  // Service.Enqueue.

  predicate HttpEnabled(s: Sys, j: nat, x: HttpStep)
    requires Sized(s)
  {
    j < |s.jobs| &&
    var http, call := s.jobs[j].http, s.p.calls[j];
    match x
    case Upload => http == Arriving && CanAsk(s, j, 0)
    case SeeCreated => http == Creating && s.w.calls[3 * j] == DONE_OK
    case SeeCreateFailed => http == Creating && s.w.calls[3 * j].Returned? && s.w.calls[3 * j] != DONE_OK
    case SeeAccepted => http == Queueing && call == P.Returned(P.Accepted)
    case SeeRejected => http == Queueing && call.Returned? && call != P.Returned(P.Accepted) && CanAsk(s, j, 1)
    case SeeRolledBack => http == RollingBack && s.w.calls[3 * j + 1].Returned?
  }

  function HttpApply(s: Sys, j: nat, x: HttpStep): Sys
    requires Sized(s) && HttpEnabled(s, j, x)
  {
    var st := s.jobs[j];
    match x
    case Upload => AskFor(s, j, 0, st.(http := Creating, job := NEW_JOB), Put(NEW_ROW))
    case SeeCreated => SetJob(s, j, st.(http := Queueing))
    case SeeCreateFailed => SetJob(s, j, st.(http := Answered))
    case SeeAccepted => SetJob(s, j, st.(http := Answered))
    case SeeRejected => AskFor(s, j, 1, st.(http := RollingBack), Remove)
    case SeeRolledBack => SetJob(s, j, st.(http := Answered))
  }

  // The stage functions.

  predicate CanSettle(s: Sys, j: nat, next: Next) {
    next.Save? ==> CanAsk(s, j, 2)
  }

  function AfterOf(next: Next): After
    requires next.Save?
  {
    if next.job.row.status == Failed then AfterFailing else AfterDone(next.entry)
  }

  function Settle(s: Sys, j: nat, i: nat, next: Next): Sys
    requires Sized(s) && j < |s.jobs| && CanSettle(s, j, next)
  {
    var st := s.jobs[j].(job := next.job);
    match next
    case Pass(_) => SetJob(s, j, st.(stage := Back(i, true)))
    case Save(job, _) => AskFor(s, j, 2, st.(stage := Saving(i, AfterOf(next))), Put(job.row))
  }

  function NextOf(cfg: Config, s: Sys, j: nat, i: nat, world: World): Next
    requires j < |s.jobs|
  {
    var job := s.jobs[j].job;
    if i == 1 then StageOcr(cfg, job, world.tess, world.ollama, s.shelf, world.now)
    else StageJev(cfg, job, world.openRouter, world.assistant, world.judge)
  }

  ghost predicate StageEnabled(cfg: Config, says: Verdicts, s: Sys, j: nat, world: World)
    requires Sized(s)
  {
    j < |s.jobs| && s.jobs[j].stage.In? &&
    var i := s.jobs[j].stage.i;
    if i == 0 then CanAsk(s, j, 1)
    else
      && CanSettle(s, j, NextOf(cfg, s, j, i, world))
      && (i == 2 ==> Honest(cfg, says, s.jobs[j].job, world.openRouter, world.assistant, world.judge))
  }

  ghost function StageApply(cfg: Config, says: Verdicts, s: Sys, j: nat, world: World): Sys
    requires Sized(s) && StageEnabled(cfg, says, s, j, world)
  {
    var st, i := s.jobs[j], s.jobs[j].stage.i;
    if i == 0 then AskFor(s, j, 1, st.(job := Mark(st.job), stage := Saving(0, AfterMarking)), Put(Mark(st.job).row))
    else
      var s' := Settle(s, j, i, NextOf(cfg, s, j, i, world));
      if i == 1 then s'.(shelf := ShelfAfterOcr(cfg, world.tess, world.ollama, s.shelf, world.now)) else s'
  }

  // The write a stage waits for.
  function Awaited(after: After): nat {
    if after.AfterMarking? then 1 else 2
  }

  predicate ResumeEnabled(s: Sys, j: nat, world: World)
    requires Sized(s)
  {
    j < |s.jobs| && s.jobs[j].stage.Saving? &&
    var after := s.jobs[j].stage.after;
    && s.w.calls[3 * j + Awaited(after)].Returned?
    && (after.AfterMarking? && s.w.calls[3 * j + 1] == DONE_OK ==>
        CanSettle(s, j, AfterMark(s.jobs[j].job, world.prepared)))
  }

  function ResumeApply(cfg: Config, s: Sys, j: nat, world: World): Sys
    requires Sized(s) && ResumeEnabled(s, j, world)
  {
    var st, i, after := s.jobs[j], s.jobs[j].stage.i, s.jobs[j].stage.after;
    if s.w.calls[3 * j + Awaited(after)] != DONE_OK then SetJob(s, j, st.(stage := Back(i, false)))
    else
      match after
      case AfterMarking => Settle(s, j, i, AfterMark(st.job, world.prepared))
      case AfterFailing => SetJob(s, j, st.(stage := Back(i, false)))
      case AfterDone(entry) =>
        SetJob(s, j, st.(stage := Back(i, true))).(shelf := ShelfAfterDone(cfg, st.job, entry, s.shelf, world.now))
  }

  ghost predicate Enabled(cfg: Config, says: Verdicts, s: Sys, a: Action) {
    Sized(s) &&
    match a
    case Pipe(x) => PipeEnabled(s, x)
    case Write(x) => WriteStepEnabled(s, x)
    case Http(j, x) => HttpEnabled(s, j, x)
    case Stage(j, world) => StageEnabled(cfg, says, s, j, world)
    case Resume(j, world) => ResumeEnabled(s, j, world)
  }

  ghost function Apply(cfg: Config, says: Verdicts, s: Sys, a: Action): Sys
    requires Enabled(cfg, says, s, a)
  {
    match a
    case Pipe(x) => PipeApply(s, x)
    case Write(x) => WriteStepApply(s, x)
    case Http(j, x) => HttpApply(s, j, x)
    case Stage(j, world) => StageApply(cfg, says, s, j, world)
    case Resume(j, world) => ResumeApply(cfg, s, j, world)
  }

  ghost predicate Step(cfg: Config, says: Verdicts, s: Sys, a: Action, s': Sys) {
    Enabled(cfg, says, s, a) && s' == Apply(cfg, says, s, a)
  }

  // A run from xs[0], with the states it goes through.
  ghost predicate Steps(cfg: Config, says: Verdicts, xs: seq<Sys>, run: seq<Action>) {
    |xs| == |run| + 1 && forall n {:trigger run[n]} :: 0 <= n < |run| ==> Step(cfg, says, xs[n], run[n], xs[n + 1])
  }

  /** `s` is what the service becomes when some run happens from `s0`. */
  ghost predicate Reaches(cfg: Config, says: Verdicts, s0: Sys, s: Sys) {
    exists xs, run :: Steps(cfg, says, xs, run) && xs[0] == s0 && xs[|run|] == s
  }
}
