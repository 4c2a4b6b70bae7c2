/** The pipeline seen from one job: which steps move it, and that no other step does. */
module PipelineMoves {
  import opened Pipeline
  import opened PipelineSafety

  const ACCEPTED := Returned(Accepted)

  // The stage function of a worker is running on job j.
  predicate Busy(p: State, j: nat)
    requires j < |p.jobs|
  {
    var place := p.jobs[j].place;
    place.With? && HasWorker(p, place.stage, place.worker) && p.stages[place.stage].workers[place.worker] == Running(j)
  }

  predicate SamePlace(p: State, p': State, j: nat)
    requires j < |p.jobs| == |p'.jobs|
  {
    p'.jobs[j].place == p.jobs[j].place && Busy(p', j) == Busy(p, j)
  }

  lemma CallMoves(p: State, k: nat, x: CallStep, j: nat)
    requires Inv(p) && CallEnabled(p, k, x) && j < |p.jobs|
    ensures var p' := CallApply(p, k, x);
      && |p'.jobs| == |p'.calls| == |p.jobs| && |p'.stages| == |p.stages|
      && (j != k ==> SamePlace(p, p', j) && p'.calls[j] == p.calls[j])
      && !p.calls[k].Returned? && p'.calls[k] != Calling && Busy(p', k) == Busy(p, k)
      && p'.jobs[k].place == if p'.calls[k] == ACCEPTED then InChan(0) else p.jobs[k].place
  {
    assert CallOk(p, k) && PlaceOk(p, k);
  }

  // The job a worker's step is about.
  function Actor(p: State, i: nat, w: nat, x: WorkStep): int
    requires WorkEnabled(p, i, w, x)
  {
    match x
    case Receive => p.stages[i].buf[0]
    case ExitClosed => -1
    case ExitCancelled => -1
    case _ => p.stages[i].workers[w].job
  }

  lemma WorkOthers(p: State, i: nat, w: nat, x: WorkStep, j: nat)
    requires Inv(p) && WorkEnabled(p, i, w, x) && j < |p.jobs| && j != Actor(p, i, w, x)
    ensures var p' := WorkApply(p, i, w, x); |p'.jobs| == |p.jobs| && SamePlace(p, p', j)
  {
    WorkFrame(p, i, w, x);
    assert PlaceOk(p, j);
    if x.Send? { NextOpen(p, i, w); }
  }

  lemma WorkSizes(p: State, i: nat, w: nat, x: WorkStep)
    requires Inv(p) && WorkEnabled(p, i, w, x)
    ensures var p' := WorkApply(p, i, w, x);
      p'.calls == p.calls && p'.shuts == p.shuts && |p'.jobs| == |p.jobs| && |p'.stages| == |p.stages|
  {
    WorkFrame(p, i, w, x);
  }

  lemma ReceiveMoves(p: State, i: nat, w: nat)
    requires Inv(p) && WorkEnabled(p, i, w, Receive)
    ensures var p', j := WorkApply(p, i, w, Receive), p.stages[i].buf[0];
      && i < 3 && j < |p.jobs| == |p'.jobs| && p.calls[j] == ACCEPTED
      && p.jobs[j].place == InChan(i) && p'.jobs[j].place == With(i, w) && Busy(p', j)
  {
    assert ChanOk(p, i) && PlaceOk(p, p.stages[i].buf[0]);
  }

  lemma ReturnMoves(p: State, i: nat, w: nat, x: WorkStep)
    requires Inv(p) && WorkEnabled(p, i, w, x) && (x.Fail? || x.Succeed?)
    ensures var p', j := WorkApply(p, i, w, x), p.stages[i].workers[w].job;
      && i < 3 && j < |p.jobs| == |p'.jobs| && p.jobs[j].place == With(i, w) && Busy(p, j) && !Busy(p', j)
      && p'.jobs[j].place == if x.Fail? then Gone(Failed(i)) else if i < 2 then p.jobs[j].place else Gone(Finished)
  {
    assert WorkerOk(p, i, w);
  }

  lemma SendMoves(p: State, i: nat, w: nat, x: WorkStep)
    requires Inv(p) && WorkEnabled(p, i, w, x) && (x.Send? || x.Drop?)
    ensures var p', j := WorkApply(p, i, w, x), p.stages[i].workers[w].job;
      && j < |p.jobs| == |p'.jobs| && p.jobs[j].place == With(i, w) && !Busy(p, j) && !Busy(p', j)
      && if x.Send? then i < 2 && p'.jobs[j].place == InChan(i + 1) else p'.jobs[j].place == Gone(Dropped(i))
  {
    assert WorkerOk(p, i, w);
    if x.Send? { NextOpen(p, i, w); }
  }

  // Start, Shutdown and the closers move no job.

  lemma ShutMovesNone(p: State, h: nat, x: ShutStep, j: nat)
    requires Inv(p) && ShutEnabled(p, h, x) && j < |p.jobs|
    ensures var p' := ShutApply(p, h, x);
      |p'.jobs| == |p.jobs| && |p'.stages| == |p.stages| && p'.calls == p.calls && SamePlace(p, p', j)
  {
    ShutControl(p, h, x);
  }

  lemma CloseOutMovesNone(p: State, i: nat, j: nat)
    requires Inv(p) && CloseOutEnabled(p, i) && j < |p.jobs|
    ensures var p' := CloseOutApply(p, i);
      |p'.jobs| == |p.jobs| && |p'.stages| == |p.stages| && p'.calls == p.calls && p'.shuts == p.shuts &&
          SamePlace(p, p', j)
  {
    CloseOutControl(p, i);
  }

  lemma QuietMoves(p: State, a: Action, j: nat)
    requires Inv(p) && Enabled(p, a) && j < |p.jobs| && (a.Start? || a.Shut? || a.CloseOut?)
    ensures var p' := Apply(p, a);
      |p'.jobs| == |p.jobs| && |p'.stages| == |p.stages| && p'.calls == p.calls && SamePlace(p, p', j)
  {
    match a
    case Start =>
    case Shut(h, x) => ShutMovesNone(p, h, x, j);
    case CloseOut(i) => CloseOutMovesNone(p, i, j);
  }

  lemma QuietSizes(p: State, a: Action)
    requires Inv(p) && Enabled(p, a) && (a.Start? || a.Shut? || a.CloseOut?)
    ensures var p' := Apply(p, a); |p'.calls| == |p'.jobs| == |p.jobs| && |p'.stages| == STAGES
  {
    match a
    case Start =>
    case Shut(h, x) => ShutControl(p, h, x);
    case CloseOut(i) => CloseOutControl(p, i);
  }

  lemma CallSizes(p: State, k: nat, x: CallStep)
    requires Inv(p) && CallEnabled(p, k, x)
    ensures var p' := CallApply(p, k, x); |p'.calls| == |p'.jobs| == |p.jobs| && |p'.stages| == STAGES
  {
    CallControl(p, k, x);
  }

  // No step makes or loses a call, a job or a stage.
  lemma StepSizes(p: State, a: Action)
    requires Inv(p) && Enabled(p, a)
    ensures var p' := Apply(p, a); |p'.calls| == |p'.jobs| == |p.jobs| && |p'.stages| == STAGES
  {
    match a
    case Call(k, x) => CallSizes(p, k, x);
    case Work(i, w, x) => WorkSizes(p, i, w, x);
    case _ => QuietSizes(p, a);
  }
}
