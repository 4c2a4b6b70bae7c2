/** The steps of the store, the uploads and the stages keep the invariant, and so does every run. */
module SystemStep {
  import opened Extract
  import opened Invoice
  import opened InvoiceTheorems
  import opened StoreRefinement
  import opened System
  import opened SystemSafety
  import opened SystemInv
  import opened PipelineMoves
  import Cache
  import P = Pipeline
  import W = Store
  import PS = PipelineSafety
  import WS = StoreSafety

  lemma ShutDownIdle(p: P.State, j: nat)
    requires PS.Inv(p) && j < |p.jobs|
    ensures ShutDown(p) ==> !Busy(p, j)
  {
    if ShutDown(p) {
      var h :| 0 <= h < |p.shuts| && p.shuts[h] == P.ShutReturned;
      assert PS.ShutOk(p, h);
      forall i | 0 <= i < |p.stages| ensures P.AllExited(p.stages[i].workers) { assert PS.ChanOk(p, i); }
    }
  }

  lemma WaitingIsBusy(f: Facts, v: View, k: nat)
    requires ViewInv(f, v) && (k == 2 || (k == 1 && v.call == ACCEPTED)) && InFlight(v.cs[k])
    ensures v.busy
  {
  }

  // While a stage waits for the store, the store is not closed.
  lemma NotStoppedYet(f: Facts, s: Sys, j: nat, k: nat)
    requires Inv(f, s) && j < |s.jobs| && (k == 2 || (k == 1 && s.p.calls[j] == ACCEPTED))
    requires InFlight(s.w.calls[3 * j + k])
    ensures !s.w.stopped
  {
    var v := ViewOf(s, j);
    assert ViewInv(f, v) by { assert JobInv(f, s, j); }
    assert v.cs[k] == s.w.calls[3 * j + k];
    WaitingIsBusy(f, v, k);
    ShutDownIdle(s.p, j);
  }

  // Store steps.

  // The view of job j when a write call moves to `pc`.
  function CallOf(v: View, j: nat, c: nat, pc: W.CallPc): View
    requires |v.cs| == 3
  {
    if c / 3 == j then v.(cs := v.cs[c % 3 := pc]) else v
  }

  lemma WriteCallViews(s: Sys, c: nat, x: W.CallStep, j: nat)
    requires Sized(s) && WS.Inv(s.w) && WriteStepEnabled(s, W.Call(c, x)) && j < |s.jobs|
    ensures var s' := WriteStepApply(s, W.Call(c, x));
      && Sized(s') && |s'.jobs| == |s.jobs| && s'.db == s.db && c < |s'.w.calls|
      && ViewOf(s', j) == CallOf(ViewOf(s, j), j, c, s'.w.calls[c])
      && (c / 3 == j ==> ViewOf(s, j).cs[c % 3] == s.w.calls[c] && ViewOf(s, j).rs[c % 3] == s.w.ran[c])
  {
    CallTells(s.w, c, x);
    Slice(s.w.calls, c, WriteStepApply(s, W.Call(c, x)).w.calls[c], j);
  }

  lemma WriteCallInv(f: Facts, s: Sys, c: nat, x: W.CallStep)
    requires Inv(f, s) && WriteStepEnabled(s, W.Call(c, x)) && c / 3 < |s.jobs|
    ensures var s' := WriteStepApply(s, W.Call(c, x));
      Sized(s') && |s'.jobs| == |s.jobs| && ViewInv(f, ViewOf(s', c / 3))
  {
    WriteCallViews(s, c, x, c / 3);
    CallTells(s.w, c, x);
    assert JobInv(f, s, c / 3);
    WriteCallView(f, ViewOf(s, c / 3), c % 3, WriteStepApply(s, W.Call(c, x)).w.calls[c]);
  }

  lemma CallOpenView(v: View, k: nat, pc: W.CallPc)
    requires |v.cs| == 3 && k < 3 && NeverClosed(v)
    requires pc == W.Returned(W.ErrClosed) ==> k == 0 || (k == 1 && v.call != ACCEPTED)
    ensures NeverClosed(v.(cs := v.cs[k := pc]))
  {
  }

  // ErrClosed reaches no stage.
  lemma ClosedReaches(f: Facts, s: Sys, c: nat, x: W.CallStep)
    requires Inv(f, s) && WriteStepEnabled(s, W.Call(c, x)) && c / 3 < |s.jobs|
    ensures c < |W.CallApply(s.w, c, x).calls|
    ensures W.CallApply(s.w, c, x).calls[c] == W.Returned(W.ErrClosed) ==>
              c % 3 == 0 || (c % 3 == 1 && s.p.calls[c / 3] != ACCEPTED)
  {
    var j, k := c / 3, c % 3;
    CallTells(s.w, c, x);
    if k == 2 || (k == 1 && s.p.calls[j] == ACCEPTED) { NotStoppedYet(f, s, j, k); }
  }

  lemma WriteCallOpen(f: Facts, s: Sys, c: nat, x: W.CallStep)
    requires Inv(f, s) && WriteStepEnabled(s, W.Call(c, x)) && c / 3 < |s.jobs|
    ensures var s' := WriteStepApply(s, W.Call(c, x));
      Sized(s') && |s'.jobs| == |s.jobs| && NeverClosed(ViewOf(s', c / 3))
  {
    WriteCallViews(s, c, x, c / 3);
    ClosedReaches(f, s, c, x);
    var v := ViewOf(s, c / 3);
    assert NeverClosed(v) by { assert JobInv(f, s, c / 3); }
    CallOpenView(v, c % 3, WriteStepApply(s, W.Call(c, x)).w.calls[c]);
  }

  lemma WriteCallJob(f: Facts, s: Sys, c: nat, x: W.CallStep, j: nat)
    requires Inv(f, s) && WriteStepEnabled(s, W.Call(c, x)) && j < |s.jobs|
    ensures var s' := WriteStepApply(s, W.Call(c, x)); Sized(s') && |s'.jobs| == |s.jobs| && JobInv(f, s', j)
  {
    WriteCallViews(s, c, x, j);
    assert JobInv(f, s, j);
    if c / 3 == j {
      WriteCallInv(f, s, c, x);
      WriteCallOpen(f, s, c, x);
    }
  }

  lemma RunFields(s: Sys, ok: bool)
    requires Sized(s) && WS.Inv(s.w) && WriteStepEnabled(s, W.Write(W.Run(ok)))
    ensures var s', c := WriteStepApply(s, W.Write(W.Run(ok))), s.w.writer.call;
      && c < |s.w.calls| && s'.p == s.p && s'.w.calls == s.w.calls && s'.w.ran == s.w.ran[c := [ok]]
      && (var st := s.jobs[c / 3];
          var wrote := if st.asks[c % 3].Remove? then Remove else Put(st.job.row);
          s'.jobs == s.jobs[c / 3 := st.(hist := if ok then st.hist + [wrote] else st.hist)])
  {
    RunTells(s.w, ok);
  }

  lemma RunSized(s: Sys, ok: bool)
    requires Sized(s) && WS.Inv(s.w) && WriteStepEnabled(s, W.Write(W.Run(ok)))
    ensures var s' := WriteStepApply(s, W.Write(W.Run(ok))); Sized(s') && |s'.jobs| == |s.jobs|
  {
    RunFields(s, ok);
  }

  lemma RunViews(s: Sys, ok: bool, j: nat)
    requires Sized(s) && WS.Inv(s.w) && WriteStepEnabled(s, W.Write(W.Run(ok))) && j < |s.jobs|
    ensures var s', c := WriteStepApply(s, W.Write(W.Run(ok))), s.w.writer.call;
      && Sized(s') && |s'.jobs| == |s.jobs|
      && ViewOf(s', j) == (if c / 3 == j then RunOf(ViewOf(s, j), c % 3, ok) else ViewOf(s, j))
      && (c / 3 == j ==> ViewOf(s, j).cs[c % 3] == s.w.calls[c] && ViewOf(s, j).rs[c % 3] == s.w.ran[c])
  {
    RunSized(s, ok);
    RunFields(s, ok);
    var s', c, v := WriteStepApply(s, W.Write(W.Run(ok))), s.w.writer.call, ViewOf(s, j);
    Slice(s.w.ran, c, [ok], j);
    assert ViewOf(s', j).cs == v.cs;
    if c / 3 == j {
      assert ViewOf(s', j).rs == v.rs[c % 3 := [ok]];
      assert ViewOf(s', j).st == RunOf(v, c % 3, ok).st;
    } else {
      assert ViewOf(s', j).st == v.st;
    }
  }

  lemma RunRow(s: Sys, ok: bool, j: nat)
    requires Sized(s) && WS.Inv(s.w) && WriteStepEnabled(s, W.Write(W.Run(ok))) && j < |s.jobs|
    requires RowIs(s.db, j, s.jobs[j].hist)
    ensures var s' := WriteStepApply(s, W.Write(W.Run(ok))); |s'.jobs| == |s.jobs| && RowIs(s'.db, j, s'.jobs[j].hist)
  {
    RunTells(s.w, ok);
  }

  lemma RunJob(f: Facts, s: Sys, ok: bool, j: nat)
    requires Inv(f, s) && WriteStepEnabled(s, W.Write(W.Run(ok))) && j < |s.jobs|
    ensures var s' := WriteStepApply(s, W.Write(W.Run(ok))); Sized(s') && |s'.jobs| == |s.jobs| && JobInv(f, s', j)
  {
    RunViews(s, ok, j);
    assert JobInv(f, s, j);
    RunRow(s, ok, j);
    if s.w.writer.call / 3 == j {
      RunTells(s.w, ok);
      RunView(f, ViewOf(s, j), s.w.writer.call % 3, ok);
    }
  }

  lemma WriteJob(f: Facts, s: Sys, x: W.Action, j: nat)
    requires Inv(f, s) && WriteStepEnabled(s, x) && j < |s.jobs|
    ensures var s' := WriteStepApply(s, x); Sized(s') && |s'.jobs| == |s.jobs| && JobInv(f, s', j)
  {
    var s' := WriteStepApply(s, x);
    assert JobInv(f, s, j);
    match x
    case Call(c, y) => WriteCallJob(f, s, c, y, j);
    case Close(d, y) =>
      WS.CloseControl(s.w, d, y);
      SameView(f, s, s', j);
    case Write(y) =>
      if y.Run? {
        RunJob(f, s, y.ok, j);
      } else {
        SameView(f, s, s', j);
      }
  }

  lemma CloseTells(s: Sys, d: nat, x: W.CloseStep)
    requires Sized(s) && WS.Inv(s.w) && CloseLate(s) && WriteStepEnabled(s, W.Close(d, x))
    ensures CloseLate(WriteStepApply(s, W.Close(d, x)))
  {
    WS.CloseControl(s.w, d, x);
    assert x.CAcquire? || s.w.closers[d] != W.CIdle;
  }

  lemma WriteKeeps(f: Facts, s: Sys, x: W.Action)
    requires Inv(f, s) && WriteStepEnabled(s, x)
    ensures Inv(f, WriteStepApply(s, x))
  {
    var s' := WriteStepApply(s, x);
    WS.InvStep(s.w, x);
    forall j | 0 <= j < |s.jobs|
      ensures Sized(s') && |s'.jobs| == |s.jobs| && JobInv(f, s', j)
    {
      WriteJob(f, s, x, j);
    }
    WriteSized(s, x);
    match x
    case Call(c, y) => CallTells(s.w, c, y);
    case Close(d, y) => CloseTells(s, d, y);
    case Write(_) =>
  }

  lemma WriteSized(s: Sys, x: W.Action)
    requires Sized(s) && WS.Inv(s.w) && WriteStepEnabled(s, x)
    ensures var s' := WriteStepApply(s, x);
      && Sized(s') && |s'.jobs| == |s.jobs| && s'.p == s.p && s'.shelf == s.shelf
      && forall j :: j in s'.db ==> j in s.db || j < |s.jobs|
  {
    match x
    case Call(c, y) => CallTells(s.w, c, y);
    case Close(d, y) => WS.CloseControl(s.w, d, y);
    case Write(_) =>
  }

  // Pipeline steps.

  lemma ShutsStay(p: P.State, a: P.Action)
    requires PS.Inv(p) && P.Enabled(p, a) && ShutDown(p)
    ensures ShutDown(P.Apply(p, a))
  {
    var h :| 0 <= h < |p.shuts| && p.shuts[h] == P.ShutReturned;
    var p' := P.Apply(p, a);
    match a
    case Work(i, w, x) => WorkSizes(p, i, w, x);
    case _ =>
    assert p'.shuts[h] == P.ShutReturned;
  }

  lemma PipeKeeps(f: Facts, s: Sys, a: P.Action)
    requires Inv(f, s) && PipeEnabled(s, a)
    ensures Inv(f, PipeApply(s, a))
  {
    var s' := PipeApply(s, a);
    PS.InvStep(s.p, a);
    forall j | 0 <= j < |s.jobs| ensures Sized(s') && |s'.jobs| == |s.jobs| && JobInv(f, s', j) { PipeJob(f, s, a, j); }
    PipeSized(s, a);
    if ShutDown(s.p) { ShutsStay(s.p, a); }
  }

  lemma PipeSized(s: Sys, a: P.Action)
    requires Sized(s) && PS.Inv(s.p) && PipeEnabled(s, a)
    ensures var s' := PipeApply(s, a);
      Sized(s') && |s'.jobs| == |s.jobs| && s'.w == s.w && s'.db == s.db && s'.shelf == s.shelf &&
          s'.p == P.Apply(s.p, a)
  {
    StepSizes(s.p, a);
  }

  // Steps that begin a write call or only move a job's own state.

  lemma AskViews(s: Sys, j: nat, k: nat, st: JobState, ask: Ask, j': nat)
    requires Sized(s) && j < |s.jobs| && j' < |s.jobs| && k < 3 && |st.asks| == 3 && CanAsk(s, j, k)
    ensures var s' := AskFor(s, j, k, st, ask);
      && Sized(s') && |s'.jobs| == |s.jobs| && s'.db == s.db
      && ViewOf(s', j') == (if j' == j then AskOf(ViewOf(s, j), k, st, ask) else ViewOf(s, j'))
  {
    Slice(s.w.calls, 3 * j + k, W.Checking, j');
  }

  lemma AskJob(f: Facts, s: Sys, j: nat, k: nat, st: JobState, ask: Ask, j': nat)
    requires Inv(f, s) && j < |s.jobs| && j' < |s.jobs| && k < 3
    requires |st.asks| == 3 && st.hist == s.jobs[j].hist && CanAsk(s, j, k)
    requires ViewInv(f, AskOf(ViewOf(s, j), k, st, ask))
    ensures var s' := AskFor(s, j, k, st, ask); Sized(s') && |s'.jobs| == |s.jobs| && JobInv(f, s', j')
  {
    AskViews(s, j, k, st, ask, j');
    assert JobInv(f, s, j');
  }

  // Beginning a write call keeps the invariant if it keeps that of the caller's job.
  lemma AskKeeps(f: Facts, s: Sys, j: nat, k: nat, st: JobState, ask: Ask)
    requires Inv(f, s) && j < |s.jobs| && k < 3 && |st.asks| == 3 && st.hist == s.jobs[j].hist && CanAsk(s, j, k)
    requires ViewInv(f, AskOf(ViewOf(s, j), k, st, ask))
    ensures Inv(f, AskFor(s, j, k, st, ask))
  {
    WS.InvStep(s.w, W.Call(3 * j + k, W.Begin));
    AskViews(s, j, k, st, ask, j);
    forall j' | 0 <= j' < |s.jobs|
      ensures Sized(AskFor(s, j, k, st, ask)) && JobInv(f, AskFor(s, j, k, st, ask), j')
    {
      AskJob(f, s, j, k, st, ask, j');
    }
  }

  lemma SetViews(s: Sys, j: nat, st: JobState, j': nat)
    requires Sized(s) && j < |s.jobs| && j' < |s.jobs| && |st.asks| == 3
    ensures var s' := SetJob(s, j, st);
      && Sized(s') && |s'.jobs| == |s.jobs| && s'.db == s.db
      && ViewOf(s', j') == (if j' == j then ViewOf(s, j).(st := st) else ViewOf(s, j'))
  {
  }

  lemma SetJobInv(f: Facts, s: Sys, j: nat, st: JobState, j': nat)
    requires Inv(f, s) && j < |s.jobs| && j' < |s.jobs| && |st.asks| == 3 && st.hist == s.jobs[j].hist
    requires ViewInv(f, ViewOf(s, j).(st := st))
    ensures var s' := SetJob(s, j, st); Sized(s') && |s'.jobs| == |s.jobs| && JobInv(f, s', j')
  {
    SetViews(s, j, st, j');
    assert JobInv(f, s, j');
  }

  lemma SetKeepsInv(f: Facts, s: Sys, j: nat, st: JobState)
    requires Inv(f, s) && j < |s.jobs| && |st.asks| == 3 && st.hist == s.jobs[j].hist
    requires ViewInv(f, ViewOf(s, j).(st := st))
    ensures Inv(f, SetJob(s, j, st))
  {
    SetViews(s, j, st, j);
    forall j' | 0 <= j' < |s.jobs| ensures Sized(SetJob(s, j, st)) && JobInv(f, SetJob(s, j, st), j') {
      SetJobInv(f, s, j, st, j');
    }
  }

  // The upload.
  lemma HttpKeeps(f: Facts, s: Sys, j: nat, x: HttpStep)
    requires Inv(f, s) && HttpEnabled(s, j, x)
    ensures Inv(f, HttpApply(s, j, x))
  {
    assert JobInv(f, s, j);
    var v := ViewOf(s, j);
    match x
    case Upload =>
      UploadView(f, v);
      AskKeeps(f, s, j, 0, v.st.(http := Creating, job := NEW_JOB), Put(NEW_ROW));
    case SeeRejected =>
      RejectView(f, v);
      AskKeeps(f, s, j, 1, v.st.(http := RollingBack), Remove);
    case SeeCreated =>
      AnswerView(f, v, Queueing);
      SetKeepsInv(f, s, j, v.st.(http := Queueing));
    case _ =>
      AnswerView(f, v, Answered);
      SetKeepsInv(f, s, j, v.st.(http := Answered));
  }

  // The stages.

  // What JobOk, Coherent and EntryOk say, as the facts the invariant carries.
  ghost function FactsOf(cfg: Config, says: Verdicts): Facts {
    Facts(job => JobOk(cfg, says, job), row => Coherent(says, row), (text, e) => EntryOk(cfg, says, text, e))
  }

  lemma SettleKeeps(f: Facts, s: Sys, j: nat, i: nat, next: Next)
    requires Inv(f, s) && j < |s.jobs| && CanSettle(s, j, next) && Ready(ViewOf(s, j), i)
    requires next.Save? ==> NextFine(f, next) && (next.job.row.status == Done ==> i == 2)
    requires next.Pass? ==> i < 2 && if i == 0 then next.job == s.jobs[j].job else f.job(next.job)
    ensures Inv(f, Settle(s, j, i, next))
  {
    assert JobInv(f, s, j);
    var v := ViewOf(s, j);
    match next
    case Pass(job) =>
      PassView(f, v, i, job);
      SetKeepsInv(f, s, j, v.st.(job := job, stage := Back(i, true)));
    case Save(job, _) =>
      SaveView(f, v, i, next);
      AskKeeps(f, s, j, 2, v.st.(job := job, stage := Saving(i, AfterOf(next))), Put(job.row));
  }

  lemma ReadyForOcr(f: Facts, s: Sys, j: nat)
    requires Inv(f, s) && j < |s.jobs| && s.jobs[j].stage == In(1)
    ensures s.jobs[j].job == Mark(NEW_JOB)
  {
    assert JobInv(f, s, j);
    assert Marked(ViewOf(s, j));
  }

  lemma OcrNext(cfg: Config, says: Verdicts, s: Sys, j: nat, world: World)
    requires Inv(FactsOf(cfg, says), s) && j < |s.jobs| && s.jobs[j].stage == In(1)
    ensures var f, next := FactsOf(cfg, says), NextOf(cfg, s, j, 1, world);
      && (next.Save? ==> NextFine(f, next) && next.job.row.status == Failed)
      && (next.Pass? ==> f.job(next.job))
      && ShelfFine(f, ShelfAfterOcr(cfg, world.tess, world.ollama, s.shelf, world.now))
  {
    ReadyForOcr(FactsOf(cfg, says), s, j);
    OcrKeeps(cfg, says, Mark(NEW_JOB), world.tess, world.ollama, s.shelf, world.now);
  }

  lemma JevNext(cfg: Config, says: Verdicts, s: Sys, j: nat, world: World)
    requires Inv(FactsOf(cfg, says), s) && j < |s.jobs| && s.jobs[j].stage == In(2)
    requires Honest(cfg, says, s.jobs[j].job, world.openRouter, world.assistant, world.judge)
    ensures NextFine(FactsOf(cfg, says), NextOf(cfg, s, j, 2, world))
  {
    assert JobInv(FactsOf(cfg, says), s, j);
    JevKeeps(cfg, says, s.jobs[j].job, world.openRouter, world.assistant, world.judge);
  }

  lemma StageKeeps(cfg: Config, says: Verdicts, s: Sys, j: nat, world: World)
    requires Inv(FactsOf(cfg, says), s) && StageEnabled(cfg, says, s, j, world)
    ensures Inv(FactsOf(cfg, says), StageApply(cfg, says, s, j, world))
  {
    var f, i := FactsOf(cfg, says), s.jobs[j].stage.i;
    assert JobInv(f, s, j);
    var v := ViewOf(s, j);
    if i == 0 {
      MarkView(f, v);
      AskKeeps(f, s, j, 1, v.st.(job := Mark(v.st.job), stage := Saving(0, AfterMarking)), Put(Mark(v.st.job).row));
    } else if i == 1 {
      OcrNext(cfg, says, s, j, world);
      SettleKeeps(f, s, j, 1, NextOf(cfg, s, j, 1, world));
      ShelfKeeps(f, Settle(s, j, 1, NextOf(cfg, s, j, 1, world)),
          ShelfAfterOcr(cfg, world.tess, world.ollama, s.shelf, world.now));
    } else {
      JevNext(cfg, says, s, j, world);
      SettleKeeps(f, s, j, 2, NextOf(cfg, s, j, 2, world));
    }
  }

  lemma ShelfKeeps(f: Facts, s: Sys, shelf: Cache.Shelf)
    requires Inv(f, s) && ShelfFine(f, shelf)
    ensures Inv(f, s.(shelf := shelf))
  {
    var s' := s.(shelf := shelf);
    forall j | 0 <= j < |s'.jobs| ensures Sized(s') && JobInv(f, s', j) {
      assert JobInv(f, s, j);
      SameView(f, s, s', j);
    }
  }

  lemma ResumeKeeps(cfg: Config, says: Verdicts, s: Sys, j: nat, world: World)
    requires Inv(FactsOf(cfg, says), s) && ResumeEnabled(s, j, world)
    ensures Inv(FactsOf(cfg, says), ResumeApply(cfg, s, j, world))
  {
    var f, st := FactsOf(cfg, says), s.jobs[j];
    var i, after := st.stage.i, st.stage.after;
    assert JobInv(f, s, j);
    var v := ViewOf(s, j);
    assert v.cs[Awaited(after)] == s.w.calls[3 * j + Awaited(after)];
    if v.cs[Awaited(after)] == DONE_OK && after.AfterMarking? {
      SettleKeeps(f, s, j, 0, AfterMark(st.job, world.prepared));
    } else {
      var ok := v.cs[Awaited(after)] == DONE_OK && after.AfterDone?;
      BackView(f, v, ok);
      SetKeepsInv(f, s, j, st.(stage := Back(i, ok)));
      if ok {
        SetKeeps(cfg, says, st.job, after.entry, s.shelf, world.now);
        ShelfKeeps(f, SetJob(s, j, st.(stage := Back(i, ok))),
            ShelfAfterDone(cfg, st.job, after.entry, s.shelf, world.now));
      }
    }
  }

  /** Every step of the service keeps the invariant. */
  lemma InvStep(cfg: Config, says: Verdicts, s: Sys, a: Action)
    requires Inv(FactsOf(cfg, says), s) && Enabled(cfg, says, s, a)
    ensures Inv(FactsOf(cfg, says), Apply(cfg, says, s, a))
  {
    match a
    case Pipe(x) => PipeKeeps(FactsOf(cfg, says), s, x);
    case Write(x) => WriteKeeps(FactsOf(cfg, says), s, x);
    case Http(j, x) => HttpKeeps(FactsOf(cfg, says), s, j, x);
    case Stage(j, world) => StageKeeps(cfg, says, s, j, world);
    case Resume(j, world) => ResumeKeeps(cfg, says, s, j, world);
  }

  const FIRST_JOB := JobState(Arriving, Out, NEW_JOB, [Unasked, Unasked, Unasked], [])

  lemma FirstView(f: Facts)
    ensures ViewInv(f, View(P.Calling, P.Nowhere, false, [W.Idle, W.Idle, W.Idle], [[], [], []], FIRST_JOB))
  {
  }

  lemma InitViews(o: P.Options, jobs: nat, shuts: nat, closers: nat, j: nat)
    requires |o.workers| == |o.buffers| == P.STAGES && j < jobs
    ensures var s := Init(o, jobs, shuts, closers);
      Sized(s) && |s.jobs| == jobs &&
      ViewOf(s, j) == View(P.Calling, P.Nowhere, false, [W.Idle, W.Idle, W.Idle], [[], [], []], FIRST_JOB)
  {
  }

  lemma InitInv(f: Facts, o: P.Options, jobs: nat, shuts: nat, closers: nat)
    requires |o.workers| == |o.buffers| == P.STAGES
    ensures Inv(f, Init(o, jobs, shuts, closers))
  {
    PS.InitInv(o, jobs, shuts);
    WS.InitInv(3 * jobs, closers);
    FirstView(f);
    forall j | 0 <= j < jobs
      ensures var s := Init(o, jobs, shuts, closers); Sized(s) && |s.jobs| == jobs && JobInv(f, s, j)
    {
      InitViews(o, jobs, shuts, closers, j);
    }
  }

  lemma {:induction false} InvAt(cfg: Config, says: Verdicts, xs: seq<Sys>, run: seq<Action>, n: nat)
    requires Steps(cfg, says, xs, run) && n <= |run| && Inv(FactsOf(cfg, says), xs[0])
    ensures Inv(FactsOf(cfg, says), xs[n])
  {
    if n > 0 {
      InvAt(cfg, says, xs, run, n - 1);
      var a := run[n - 1];
      InvStep(cfg, says, xs[n - 1], a);
    }
  }

  lemma ReachableInv(cfg: Config, says: Verdicts, s0: Sys, s: Sys)
    requires Inv(FactsOf(cfg, says), s0) && Reaches(cfg, says, s0, s)
    ensures Inv(FactsOf(cfg, says), s)
  {
    var xs, run :| Steps(cfg, says, xs, run) && xs[0] == s0 && xs[|run|] == s;
    InvAt(cfg, says, xs, run, |run|);
  }
}
