/** The whole service comes to an end and does not stop short of it: every step lowers a measure, and where
    nothing can step, no upload, stage, write or Shutdown is left waiting. */
module SystemLiveness {
  import opened Extract
  import opened Invoice
  import opened InvoiceTheorems
  import opened System
  import opened SystemSafety
  import opened SystemInv
  import opened SystemStep
  import opened SystemTheorems
  import opened PipelineMoves
  import opened Sums
  import P = Pipeline
  import W = Store
  import PS = PipelineSafety
  import PL = PipelineLiveness
  import WS = StoreSafety
  import WT = StoreTheorems

  // Termination.

  function JobWeight(st: JobState): nat {
    (match st.http
     case Arriving => 4
     case Creating => 3
     case Queueing => 2
     case RollingBack => 1
     case Answered => 0) +
    (match st.stage
     case Out => 0
     case In(_) => 3
     case Saving(_, after) => if after.AfterMarking? then 2 else 1
     case Back(_, _) => 0)
  }

  // A step of the pipeline may call a stage function: it counts for what that may do.
  function Measure(s: Sys): nat
    requires Sized(s)
  {
    4 * PL.Measure(s.p) + WT.Measure(s.w) + Sum(JobWeight, s.jobs)
  }

  lemma PipeJobs(f: Facts, s: Sys, i: nat, w: nat, x: P.WorkStep)
    requires Inv(f, s) && PipeEnabled(s, P.Work(i, w, x)) && (x.Receive? || x.Fail? || x.Succeed?)
    ensures var s', j := PipeApply(s, P.Work(i, w, x)), Actor(s.p, i, w, x);
      && 0 <= j < |s.jobs| && |s'.jobs| == |s.jobs| && s'.jobs == s.jobs[j := s'.jobs[j]]
      && JobWeight(s'.jobs[j]) <= JobWeight(s.jobs[j]) + 3
  {
    match x
    case Receive => ReceiveMoves(s.p, i, w);
    case Fail => ReturnMoves(s.p, i, w, x);
    case Succeed => ReturnMoves(s.p, i, w, x);
    case _ =>
  }

  lemma PipeWeights(f: Facts, s: Sys, a: P.Action)
    requires Inv(f, s) && PipeEnabled(s, a)
    ensures Sum(JobWeight, PipeApply(s, a).jobs) <= Sum(JobWeight, s.jobs) + 3
  {
    if a.Work? && (a.work.Receive? || a.work.Fail? || a.work.Succeed?) {
      var j := Actor(s.p, a.i, a.w, a.work);
      PipeJobs(f, s, a.i, a.w, a.work);
      SumUpdate(JobWeight, s.jobs, j, PipeApply(s, a).jobs[j]);
    }
  }

  lemma PipeDecreases(f: Facts, s: Sys, a: P.Action)
    requires Inv(f, s) && PipeEnabled(s, a)
    ensures Sized(PipeApply(s, a)) && Measure(PipeApply(s, a)) < Measure(s)
  {
    PipeSized(s, a);
    PipeWeights(f, s, a);
    PL.StepDecreases(s.p, a);
  }

  lemma WriteWeights(s: Sys, x: W.Action)
    requires Sized(s) && WS.Inv(s.w) && WriteStepEnabled(s, x)
    ensures Sum(JobWeight, WriteStepApply(s, x).jobs) == Sum(JobWeight, s.jobs)
  {
    if x.Write? && x.write.Run? {
      RunFields(s, x.write.ok);
      var j := s.w.writer.call / 3;
      SumUpdate(JobWeight, s.jobs, j, WriteStepApply(s, x).jobs[j]);
    }
  }

  lemma WriteDecreases(f: Facts, s: Sys, x: W.Action)
    requires Inv(f, s) && WriteStepEnabled(s, x)
    ensures Sized(WriteStepApply(s, x)) && Measure(WriteStepApply(s, x)) < Measure(s)
  {
    WriteSized(s, x);
    WriteWeights(s, x);
    WT.StepDecreases(s.w, x);
  }

  lemma SetDecreases(s: Sys, j: nat, st: JobState)
    requires Sized(s) && j < |s.jobs| && |st.asks| == 3 && JobWeight(st) < JobWeight(s.jobs[j])
    ensures Sized(SetJob(s, j, st)) && Measure(SetJob(s, j, st)) < Measure(s)
  {
    SumUpdate(JobWeight, s.jobs, j, st);
  }

  lemma AskDecreases(s: Sys, j: nat, k: nat, st: JobState, ask: Ask)
    requires Sized(s) && WS.Inv(s.w) && j < |s.jobs| && k < 3 && |st.asks| == 3 && CanAsk(s, j, k)
    requires JobWeight(st) <= JobWeight(s.jobs[j])
    ensures Sized(AskFor(s, j, k, st, ask)) && Measure(AskFor(s, j, k, st, ask)) < Measure(s)
  {
    assert WT.Measure(AskFor(s, j, k, st, ask).w) < WT.Measure(s.w) by {
      WT.StepDecreases(s.w, W.Call(3 * j + k, W.Begin));
    }
    SumUpdate(JobWeight, s.jobs, j, st.(asks := st.asks[k := ask]));
  }

  lemma HttpDecreases(s: Sys, j: nat, x: HttpStep)
    requires Sized(s) && WS.Inv(s.w) && HttpEnabled(s, j, x)
    ensures Sized(HttpApply(s, j, x)) && Measure(HttpApply(s, j, x)) < Measure(s)
  {
    var st := s.jobs[j];
    match x
    case Upload => AskDecreases(s, j, 0, st.(http := Creating, job := NEW_JOB), Put(NEW_ROW));
    case SeeRejected => AskDecreases(s, j, 1, st.(http := RollingBack), Remove);
    case SeeCreated => SetDecreases(s, j, st.(http := Queueing));
    case _ => SetDecreases(s, j, st.(http := Answered));
  }

  lemma SettleDecreases(s: Sys, j: nat, i: nat, next: Next)
    requires Sized(s) && WS.Inv(s.w) && j < |s.jobs| && CanSettle(s, j, next)
    requires s.jobs[j].stage.In? || s.jobs[j].stage == Saving(i, AfterMarking)
    ensures Sized(Settle(s, j, i, next)) && Measure(Settle(s, j, i, next)) < Measure(s)
  {
    var st := s.jobs[j].(job := next.job);
    match next
    case Pass(_) => SetDecreases(s, j, st.(stage := Back(i, true)));
    case Save(job, _) => AskDecreases(s, j, 2, st.(stage := Saving(i, AfterOf(next))), Put(job.row));
  }

  lemma MarkDecreases(s: Sys, j: nat)
    requires Sized(s) && WS.Inv(s.w) && j < |s.jobs| && s.jobs[j].stage.In? && CanAsk(s, j, 1)
    ensures var st := s.jobs[j];
      var s' := AskFor(s, j, 1, st.(job := Mark(st.job), stage := Saving(0, AfterMarking)), Put(Mark(st.job).row));
      Sized(s') && Measure(s') < Measure(s)
  {
    var st := s.jobs[j];
    AskDecreases(s, j, 1, st.(job := Mark(st.job), stage := Saving(0, AfterMarking)), Put(Mark(st.job).row));
  }

  lemma StageDecreases(cfg: Config, says: Verdicts, s: Sys, j: nat, world: World)
    requires Sized(s) && WS.Inv(s.w) && StageEnabled(cfg, says, s, j, world)
    ensures var s' := StageApply(cfg, says, s, j, world); Sized(s') && Measure(s') < Measure(s)
  {
    var i := s.jobs[j].stage.i;
    if i == 0 { MarkDecreases(s, j); } else { SettleDecreases(s, j, i, NextOf(cfg, s, j, i, world)); }
  }

  lemma ResumeBack(cfg: Config, s: Sys, j: nat, world: World)
    requires Sized(s) && ResumeEnabled(s, j, world)
    requires !(s.jobs[j].stage.after.AfterMarking? && s.w.calls[3 * j + 1] == DONE_OK)
    ensures var s', st := ResumeApply(cfg, s, j, world), s.jobs[j]; exists ok: bool ::
      s' == SetJob(s, j, st.(stage := Back(st.stage.i, ok))).(shelf := s'.shelf)
  {
    var st, after := s.jobs[j], s.jobs[j].stage.after;
    var ok := after.AfterDone? && s.w.calls[3 * j + 2] == DONE_OK;
    assert ResumeApply(cfg, s, j, world).jobs == s.jobs[j := st.(stage := Back(st.stage.i, ok))];
  }

  lemma ResumeDecreases(cfg: Config, s: Sys, j: nat, world: World)
    requires Sized(s) && WS.Inv(s.w) && ResumeEnabled(s, j, world)
    ensures var s' := ResumeApply(cfg, s, j, world); Sized(s') && Measure(s') < Measure(s)
  {
    var st := s.jobs[j];
    if st.stage.after.AfterMarking? && s.w.calls[3 * j + 1] == DONE_OK {
      SettleDecreases(s, j, st.stage.i, AfterMark(st.job, world.prepared));
    } else {
      ResumeBack(cfg, s, j, world);
      var s' := ResumeApply(cfg, s, j, world);
      var ok: bool :| s' == SetJob(s, j, st.(stage := Back(st.stage.i, ok))).(shelf := s'.shelf);
      SetDecreases(s, j, st.(stage := Back(st.stage.i, ok)));
    }
  }

  /** Every step of the service lowers one measure. */
  lemma StepDecreases(cfg: Config, says: Verdicts, s: Sys, a: Action)
    requires Inv(FactsOf(cfg, says), s) && Enabled(cfg, says, s, a)
    ensures Sized(Apply(cfg, says, s, a)) && Measure(Apply(cfg, says, s, a)) < Measure(s)
  {
    var f := FactsOf(cfg, says);
    match a
    case Pipe(x) => PipeDecreases(f, s, x);
    case Write(x) => WriteDecreases(f, s, x);
    case Http(j, x) => HttpDecreases(s, j, x);
    case Stage(j, world) => StageDecreases(cfg, says, s, j, world);
    case Resume(j, world) => ResumeDecreases(cfg, s, j, world);
  }

  lemma StepGoesOn(cfg: Config, says: Verdicts, s: Sys, a: Action)
    requires Inv(FactsOf(cfg, says), s) && Enabled(cfg, says, s, a)
    ensures Inv(FactsOf(cfg, says), Apply(cfg, says, s, a)) && Measure(Apply(cfg, says, s, a)) < Measure(s)
  {
    StepDecreases(cfg, says, s, a);
    InvStep(cfg, says, s, a);
  }

  lemma {:induction false} DecreasesAt(cfg: Config, says: Verdicts, xs: seq<Sys>, run: seq<Action>, n: nat)
    requires Steps(cfg, says, xs, run) && n <= |run| && Inv(FactsOf(cfg, says), xs[0])
    ensures Inv(FactsOf(cfg, says), xs[n]) && n + Measure(xs[n]) <= Measure(xs[0])
  {
    if n > 0 {
      DecreasesAt(cfg, says, xs, run, n - 1);
      var a := run[n - 1];
      StepGoesOn(cfg, says, xs[n - 1], a);
    }
  }

  /** No run of the service is longer than the measure of the state it starts in. */
  lemma RunsAreFinite(cfg: Config, says: Verdicts, xs: seq<Sys>, run: seq<Action>)
    requires Steps(cfg, says, xs, run) && Reachable(cfg, says, xs[0])
    ensures Sized(xs[0]) && |run| <= Measure(xs[0])
  {
    Safe(cfg, says, xs[0]);
    DecreasesAt(cfg, says, xs, run, |run|);
  }

  // Progress.

  // Steps taken only because a context is cancelled or a timeout has run out.
  predicate Cancelling(a: Action) {
    match a
    case Pipe(x) => PL.Cancelling(x)
    case Write(x) => WT.Cancelling(x)
    case _ => false
  }

  // A write call under way can go on, or whoever it waits for can.
  lemma WriteMoves(cfg: Config, says: Verdicts, s: Sys, c: nat) returns (a: Action)
    requires Inv(FactsOf(cfg, says), s) && c < |s.w.calls| && InFlight(s.w.calls[c])
    ensures Enabled(cfg, says, s, a) && !Cancelling(a)
  {
    var x := WT.CallMoves(s.w, c);
    a := Write(x);
  }

  // What the world may answer whatever the text.
  const SILENT := World(false, Unavailable, Unavailable, Unavailable, NoAssistant, NoJudge, 0)

  lemma BusyTells(f: Facts, s: Sys, i: nat, w: nat)
    requires Inv(f, s) && P.WorkEnabled(s.p, i, w, P.Fail)
    ensures var j := s.p.stages[i].workers[w].job;
      j < |s.jobs| && !s.jobs[j].stage.Out? && (s.jobs[j].stage.Back? ==> s.jobs[j].stage.i == i)
  {
    var j := s.p.stages[i].workers[w].job;
    ReturnMoves(s.p, i, w, P.Fail);
    assert StageOk(ViewOf(s, j)) by { assert JobInv(f, s, j); }
  }

  lemma StageMoves(cfg: Config, says: Verdicts, s: Sys, j: nat) returns (a: Action)
    requires Inv(FactsOf(cfg, says), s) && j < |s.jobs| && s.jobs[j].stage.In?
    ensures Enabled(cfg, says, s, a) && !Cancelling(a)
  {
    NothingAsked(FactsOf(cfg, says), s, j);
    a := Stage(j, SILENT);
  }

  lemma SavingTells(f: Facts, s: Sys, j: nat)
    requires Inv(f, s) && j < |s.jobs| && s.jobs[j].stage.Saving?
    ensures s.w.calls[3 * j + Awaited(s.jobs[j].stage.after)] != W.Idle
  {
    var k := Awaited(s.jobs[j].stage.after);
    assert StageOk(ViewOf(s, j)) by { assert JobInv(f, s, j); }
    assert ViewOf(s, j).cs[k] == s.w.calls[3 * j + k];
  }

  lemma ResumeMoves(cfg: Config, says: Verdicts, s: Sys, j: nat) returns (a: Action)
    requires Inv(FactsOf(cfg, says), s) && j < |s.jobs| && s.jobs[j].stage.Saving?
    ensures Enabled(cfg, says, s, a) && !Cancelling(a)
  {
    var k := Awaited(s.jobs[j].stage.after);
    SavingTells(FactsOf(cfg, says), s, j);
    if s.w.calls[3 * j + k].Returned? {
      NothingAsked(FactsOf(cfg, says), s, j);
      a := Resume(j, SILENT);
    } else {
      a := WriteMoves(cfg, says, s, 3 * j + k);
    }
  }

  // A stage function that has been called can go on, or the store can, or it can return.
  lemma BusyMoves(cfg: Config, says: Verdicts, s: Sys, i: nat, w: nat) returns (a: Action)
    requires Inv(FactsOf(cfg, says), s) && P.WorkEnabled(s.p, i, w, P.Fail)
    ensures Enabled(cfg, says, s, a) && !Cancelling(a)
  {
    var j := s.p.stages[i].workers[w].job;
    BusyTells(FactsOf(cfg, says), s, i, w);
    match s.jobs[j].stage
    case In(_) => a := StageMoves(cfg, says, s, j);
    case Saving(_, after) => a := ResumeMoves(cfg, says, s, j);
    case Back(_, ok) => a := Pipe(P.Work(i, w, if ok then P.Succeed else P.Fail));
  }

  // A caller of Enqueue is past its first step only while its upload waits for it.
  lemma QueueingCall(f: Facts, s: Sys, k: nat)
    requires Inv(f, s) && k < |s.jobs| && s.p.calls[k] != P.Calling && !s.p.calls[k].Returned?
    ensures s.jobs[k].http == Queueing
  {
    assert JobInv(f, s, k);
  }

  // A step the pipeline could take by itself, or one that it waits for.
  lemma PipeMoves(cfg: Config, says: Verdicts, s: Sys, x: P.Action) returns (a: Action)
    requires Inv(FactsOf(cfg, says), s) && P.Enabled(s.p, x) && !PL.Cancelling(x) && PL.FailsRunning(s.p, x)
    requires x.Call? ==> x.k < |s.jobs| && s.jobs[x.k].http == Queueing
    ensures Enabled(cfg, says, s, a) && !Cancelling(a)
  {
    if x.Work? && (x.work.Fail? || x.work.Succeed?) {
      a := BusyMoves(cfg, says, s, x.i, x.w);
    } else {
      a := Pipe(x);
    }
  }

  lemma HttpTells(f: Facts, s: Sys, j: nat)
    requires Inv(f, s) && j < |s.jobs|
    ensures |s.w.replies| == |s.w.calls|
    ensures s.w.calls[3 * j] == W.Idle <==> s.jobs[j].http == Arriving
    ensures s.jobs[j].http == Queueing && s.p.calls[j] != ACCEPTED ==> s.w.calls[3 * j + 1] == W.Idle
    ensures s.jobs[j].http == RollingBack ==> s.w.calls[3 * j + 1] != W.Idle
  {
    var v := ViewOf(s, j);
    assert HttpOk(v) by { assert JobInv(f, s, j); }
    assert v.cs[0] == s.w.calls[3 * j] && v.cs[1] == s.w.calls[3 * j + 1];
  }

  // An upload that has not been answered can go on, or what it waits for can.
  lemma HttpMoves(cfg: Config, says: Verdicts, s: Sys, j: nat) returns (a: Action)
    requires Inv(FactsOf(cfg, says), s) && j < |s.jobs| && s.jobs[j].http != Answered
    ensures Enabled(cfg, says, s, a) && !Cancelling(a)
  {
    HttpTells(FactsOf(cfg, says), s, j);
    var create, undo, call := s.w.calls[3 * j], s.w.calls[3 * j + 1], s.p.calls[j];
    match s.jobs[j].http
    case Arriving => a := Http(j, Upload);
    case Creating =>
      if create.Returned? { a := Http(j, if create == DONE_OK then SeeCreated else SeeCreateFailed); }
      else { a := WriteMoves(cfg, says, s, 3 * j); }
    case Queueing =>
      if call.Returned? { a := Http(j, if call == ACCEPTED then SeeAccepted else SeeRejected); }
      else { a := QueueMoves(cfg, says, s, j); }
    case RollingBack =>
      if undo.Returned? { a := Http(j, SeeRolledBack); } else { a := WriteMoves(cfg, says, s, 3 * j + 1); }
  }

  lemma QueueMoves(cfg: Config, says: Verdicts, s: Sys, j: nat) returns (a: Action)
    requires Inv(FactsOf(cfg, says), s) && j < |s.jobs| && s.jobs[j].http == Queueing && !s.p.calls[j].Returned?
    ensures Enabled(cfg, says, s, a) && !Cancelling(a)
  {
    var x := PL.CallMoves(s.p, j);
    if x.Call? && x.k != j { QueueingCall(FactsOf(cfg, says), s, x.k); }
    a := PipeMoves(cfg, says, s, x);
  }

  // A caller of Shutdown that has not returned can go on, or what it waits for can.
  lemma ShutMoves(cfg: Config, says: Verdicts, s: Sys, h: nat) returns (a: Action)
    requires Inv(FactsOf(cfg, says), s) && h < |s.p.shuts|
    requires !s.p.shuts[h].ReturnedUnstarted? && !s.p.shuts[h].ShutReturned?
    ensures Enabled(cfg, says, s, a) && !Cancelling(a)
  {
    var x := PL.ShutMoves(s.p, h);
    if x.Call? { QueueingCall(FactsOf(cfg, says), s, x.k); }
    a := PipeMoves(cfg, says, s, x);
  }

  predicate Closed(pc: W.ClosePc) {
    pc.WasClosed? || pc.CReturned?
  }

  // After a Shutdown, so can a caller of the store's Close.
  lemma CloseMoves(cfg: Config, says: Verdicts, s: Sys, d: nat) returns (a: Action)
    requires Inv(FactsOf(cfg, says), s) && d < |s.w.closers| && !Closed(s.w.closers[d]) && ShutDown(s.p)
    ensures Enabled(cfg, says, s, a) && !Cancelling(a)
  {
    var x := WT.CloseMoves(s.w, d);
    a := Write(x);
  }

  // Short of a hard cancel, an accepted job that has not retired has a worker that can go on with it.
  lemma JobMoves(cfg: Config, says: Verdicts, s: Sys, j: nat) returns (a: Action)
    requires Inv(FactsOf(cfg, says), s) && j < |s.jobs| && s.p.calls[j] == ACCEPTED && !s.p.jobs[j].place.Gone?
    requires s.p.started && (s.p.baseDone ==> s.p.jobs[j].place.With?)
    ensures Enabled(cfg, says, s, a) && !Cancelling(a)
  {
    var i, w := HolderOf(s.p, j);
    var x := PL.Unblock(s.p, i, w);
    a := PipeMoves(cfg, says, s, x);
  }

  // The worker that holds a job, or one it can wait for.
  lemma HolderOf(p: P.State, j: nat) returns (i: nat, w: nat)
    requires PS.Inv(p) && j < |p.jobs| && p.calls[j] == ACCEPTED && !p.jobs[j].place.Gone?
    requires p.baseDone ==> p.jobs[j].place.With?
    ensures P.HasWorker(p, i, w) && !p.stages[i].workers[w].Exited?
    ensures p.stages[i].workers[w].Idle? ==> p.stages[i].buf != []
  {
    assert PS.PlaceOk(p, j);
    match p.jobs[j].place
    case Nowhere =>
    case InChan(n) =>
      i, w := n, 0;
      assert PS.ChanOk(p, n) && PS.WorkerOk(p, n, 0);
    case With(n, m) => i, w := n, m;
    case Gone(_) =>
  }

  // Nothing is left waiting.

  predicate Quiet(s: Sys) {
    && Sized(s)
    && (forall j :: 0 <= j < |s.jobs| ==> s.jobs[j].http == Answered && s.jobs[j].stage == Out)
    && (forall c :: 0 <= c < |s.w.calls| ==> !InFlight(s.w.calls[c]))
    && (forall h :: 0 <= h < |s.p.shuts| ==> s.p.shuts[h].ReturnedUnstarted? || s.p.shuts[h].ShutReturned?)
    && (|s.p.shuts| > 0 ==> P.Drained(s.p))
    && (ShutDown(s.p) ==> forall d :: 0 <= d < |s.w.closers| ==> Closed(s.w.closers[d]))
  }

  // Every accepted invoice has reached its end in the store, unless an Update of it returned an error.
  predicate AllServed(s: Sys)
    requires Sized(s)
  {
    forall j :: 0 <= j < |s.jobs| && s.p.calls[j] == ACCEPTED ==>
      s.p.jobs[j].place.Gone? &&
      (UpdateErred(s, j) || (j in s.db && s.db[j].status == if s.p.jobs[j].place == FINISHED then Done else Failed))
  }

  ghost predicate Stuck(cfg: Config, says: Verdicts, s: Sys) {
    forall a :: Enabled(cfg, says, s, a) ==> Cancelling(a)
  }

  lemma StuckJobs(cfg: Config, says: Verdicts, s: Sys, j: nat)
    requires Inv(FactsOf(cfg, says), s) && Stuck(cfg, says, s) && j < |s.jobs|
    ensures s.jobs[j].http == Answered && s.jobs[j].stage == Out
  {
    if s.jobs[j].http != Answered { var a := HttpMoves(cfg, says, s, j); }
    if s.jobs[j].stage != Out {
      var i, w := StageHolder(FactsOf(cfg, says), s, j);
      var a := BusyMoves(cfg, says, s, i, w);
    }
  }

  lemma StageHolder(f: Facts, s: Sys, j: nat) returns (i: nat, w: nat)
    requires Inv(f, s) && j < |s.jobs| && s.jobs[j].stage != Out
    ensures P.WorkEnabled(s.p, i, w, P.Fail)
  {
    assert StageOk(ViewOf(s, j)) by { assert JobInv(f, s, j); }
    i, w := s.p.jobs[j].place.stage, s.p.jobs[j].place.worker;
    assert PS.ChanOk(s.p, i) && PS.WorkerOk(s.p, i, w) && PS.PlaceOk(s.p, j);
    StartedWhenAccepted(s.p, j);
  }

  lemma StartedWhenAccepted(p: P.State, j: nat)
    requires PS.Inv(p) && j < |p.calls| && p.calls[j] == ACCEPTED
    ensures p.started
  {
    assert PS.CallOk(p, j);
  }

  lemma StuckIsQuiet(cfg: Config, says: Verdicts, s: Sys)
    requires Inv(FactsOf(cfg, says), s) && Stuck(cfg, says, s)
    ensures Quiet(s)
  {
    forall j | 0 <= j < |s.jobs|
      ensures s.jobs[j].http == Answered && s.jobs[j].stage == Out
    {
      StuckJobs(cfg, says, s, j);
    }
    forall c | 0 <= c < |s.w.calls| ensures !InFlight(s.w.calls[c]) {
      if InFlight(s.w.calls[c]) { var a := WriteMoves(cfg, says, s, c); }
    }
    forall h | 0 <= h < |s.p.shuts| ensures s.p.shuts[h].ReturnedUnstarted? || s.p.shuts[h].ShutReturned? {
      if !s.p.shuts[h].ReturnedUnstarted? && !s.p.shuts[h].ShutReturned? { var a := ShutMoves(cfg, says, s, h); }
    }
    if ShutDown(s.p) {
      forall d | 0 <= d < |s.w.closers| ensures Closed(s.w.closers[d]) {
        if !Closed(s.w.closers[d]) { var a := CloseMoves(cfg, says, s, d); }
      }
    }
    if |s.p.shuts| > 0 && !P.Drained(s.p) {
      assert PS.ShutOk(s.p, 0) && !Enabled(cfg, says, s, Pipe(P.Action.Start));
      var x := PL.DrainProgress(s.p);
      var a := PipeMoves(cfg, says, s, x);
    }
  }

  lemma StuckServes(cfg: Config, says: Verdicts, s: Sys, j: nat)
    requires Inv(FactsOf(cfg, says), s) && Stuck(cfg, says, s) && !s.p.baseDone
    requires j < |s.jobs| && s.p.calls[j] == ACCEPTED
    ensures s.p.jobs[j].place.Gone? && !s.p.jobs[j].place.fate.Dropped?
  {
    StartedWhenAccepted(s.p, j);
    if !s.p.jobs[j].place.Gone? { var a := JobMoves(cfg, says, s, j); }
    assert PS.LogOk(s.p, j);
  }

  lemma StuckServesAll(cfg: Config, says: Verdicts, s: Sys)
    requires Inv(FactsOf(cfg, says), s) && Stuck(cfg, says, s) && !s.p.baseDone
    ensures AllServed(s)
  {
    forall j | 0 <= j < |s.jobs| && s.p.calls[j] == ACCEPTED
      ensures s.p.jobs[j].place.Gone? &&
        (UpdateErred(s, j) || (j in s.db && s.db[j].status == if s.p.jobs[j].place == FINISHED then Done else Failed))
    {
      StuckServes(cfg, says, s, j);
      EndedJob(FactsOf(cfg, says), s, j);
    }
  }

  lemma StuckEnds(cfg: Config, says: Verdicts, s: Sys)
    requires Inv(FactsOf(cfg, says), s) && Stuck(cfg, says, s)
    ensures Quiet(s) && (!s.p.baseDone ==> AllServed(s))
  {
    StuckIsQuiet(cfg, says, s);
    if !s.p.baseDone { StuckServesAll(cfg, says, s); }
  }

  /** Deadlock freedom of the whole service, without counting on any cancellation or timeout: where nothing
      else can step, every upload is answered, every stage function has returned, no write is under way,
      every Shutdown has returned and, after one, the store is closed; and unless there was a hard cancel no
      accepted invoice is left short of its end. */
  lemma StuckMeansServed(cfg: Config, says: Verdicts, s: Sys)
    requires Reachable(cfg, says, s) && Stuck(cfg, says, s)
    ensures Quiet(s)
    ensures !s.p.baseDone ==> AllServed(s)
  {
    Safe(cfg, says, s);
    StuckEnds(cfg, says, s);
  }

  lemma WorkBase(p: P.State, i: nat, w: nat, x: P.WorkStep)
    requires P.WorkEnabled(p, i, w, x)
    ensures P.WorkApply(p, i, w, x).baseDone == p.baseDone
  {
  }

  lemma BaseOpen(p: P.State, a: P.Action)
    requires P.Enabled(p, a) && !PL.Cancelling(a) && !p.baseDone
    ensures !P.Apply(p, a).baseDone
  {
    match a
    case Start =>
    case Call(_, _) =>
    case Shut(_, _) =>
    case Work(i, w, x) => WorkBase(p, i, w, x);
    case CloseOut(_) =>
  }

  lemma BaseStays(cfg: Config, says: Verdicts, s: Sys, a: Action)
    requires Inv(FactsOf(cfg, says), s) && Enabled(cfg, says, s, a) && !Cancelling(a) && !s.p.baseDone
    ensures !Apply(cfg, says, s, a).p.baseDone
  {
    if a.Pipe? { BaseOpen(s.p, a.a); } else { PipelineRests(cfg, says, s, a); }
  }

  // The run cancels nothing and leaves nothing waiting.
  predicate FinishesWell(s: Sys, xs: seq<Sys>, run: seq<Action>)
    requires |xs| == |run| + 1
  {
    && Quiet(xs[|run|])
    && (!s.p.baseDone ==> AllServed(xs[|run|]))
    && forall a :: a in run ==> !Cancelling(a)
  }

  lemma FinishesOneMore(s: Sys, s': Sys, a: Action, xs: seq<Sys>, run: seq<Action>)
    requires |xs| == |run| + 1 && FinishesWell(s', xs, run) && !Cancelling(a) && (!s.p.baseDone ==> !s'.p.baseDone)
    ensures FinishesWell(s, [s] + xs, [a] + run)
  {
  }

  lemma OneMore(cfg: Config, says: Verdicts, s: Sys, a: Action, xs: seq<Sys>, run: seq<Action>)
    requires Steps(cfg, says, xs, run) && Step(cfg, says, s, a, xs[0])
    ensures Steps(cfg, says, [s] + xs, [a] + run)
  {
    forall n {:trigger ([a] + run)[n]} | 0 <= n < |run| + 1
      ensures Step(cfg, says, ([s] + xs)[n], ([a] + run)[n], ([s] + xs)[n + 1])
    {
      if n > 0 { assert run[n - 1] == ([a] + run)[n]; }
    }
  }

  lemma MoveOn(cfg: Config, says: Verdicts, s: Sys, a: Action)
    requires Inv(FactsOf(cfg, says), s) && Enabled(cfg, says, s, a) && !Cancelling(a)
    ensures var s' := Apply(cfg, says, s, a);
      Inv(FactsOf(cfg, says), s') && Measure(s') < Measure(s) && (!s.p.baseDone ==> !s'.p.baseDone)
  {
    StepGoesOn(cfg, says, s, a);
    if !s.p.baseDone { BaseStays(cfg, says, s, a); }
  }

  /** Hence every run can be continued, without any cancellation or timeout, to one where all of that holds. */
  lemma {:induction false} EveryRunCanFinish(cfg: Config, says: Verdicts, s: Sys)
    returns (xs: seq<Sys>, run: seq<Action>)
    requires Inv(FactsOf(cfg, says), s)
    ensures Steps(cfg, says, xs, run) && xs[0] == s && FinishesWell(s, xs, run)
    decreases Measure(s)
  {
    if a :| Enabled(cfg, says, s, a) && !Cancelling(a) {
      MoveOn(cfg, says, s, a);
      var ys, rest := EveryRunCanFinish(cfg, says, Apply(cfg, says, s, a));
      OneMore(cfg, says, s, a, ys, rest);
      FinishesOneMore(s, Apply(cfg, says, s, a), a, ys, rest);
      xs, run := [s] + ys, [a] + rest;
    } else {
      xs, run := [s], [];
      StuckEnds(cfg, says, s);
    }
  }
}
