/** Draining always ends: every step of every goroutine lowers a measure, and as long as something is
    unfinished some step can be taken. */
module PipelineLiveness {
  import opened Pipeline
  import opened PipelineSafety
  import opened PipelineTheorems
  import opened Sums

  function CallWeight(pc: CallPc): nat {
    match pc
    case Calling => 12
    case Made => 11
    case Locked => 10
    case Admitted => 9
    case Returned(_) => 0
  }

  function ShutWeight(pc: ShutPc): nat {
    match pc
    case Ready => 7
    case InOnce => 6
    case Holding => 5
    case StopSet => 4
    case IngestClosed => 3
    case PastOnce => 2
    case HardWait => 1
    case ReturnedUnstarted => 0
    case ShutReturned => 0
  }

  // A job in a channel has `hops` steps before it; the worker that holds it counts one more for itself.
  function WorkerWeight(hops: nat, pc: Worker): nat
    requires hops >= 2
  {
    match pc
    case Exited => 0
    case Idle => 1
    case Running(_) => hops
    case Sending(_) => hops - 1
  }

  function StageWeight(hops: nat, st: Stage): nat
    requires hops >= 2
  {
    Sum(pc => WorkerWeight(hops, pc), st.workers) + if st.closerDone then 0 else 1
  }

  function Measure(s: State): nat
    requires |s.stages| == STAGES
  {
    (if s.started then 0 else 1)
    + Sum(CallWeight, s.calls) + Sum(ShutWeight, s.shuts)
    + 8 * |s.stages[0].buf| + 5 * |s.stages[1].buf| + 2 * |s.stages[2].buf|
    + StageWeight(8, s.stages[0]) + StageWeight(5, s.stages[1]) + StageWeight(2, s.stages[2])
  }

  // A step of Enqueue moves its caller on; a delivery adds one job to ingest.
  lemma CallMovesOn(s: State, k: nat, c: CallStep)
    requires Inv(s) && CallEnabled(s, k, c)
    ensures var s' := CallApply(s, k, c);
      && |s'.stages| == STAGES && k < |s'.calls| && s'.calls == s.calls[k := s'.calls[k]]
      && CallWeight(s'.calls[k]) + 8 * |s'.stages[0].buf| < CallWeight(s.calls[k]) + 8 * |s.stages[0].buf|
      && s'.started == s.started && s'.shuts == s.shuts
      && s'.stages[1] == s.stages[1] && s'.stages[2] == s.stages[2]
      && s'.stages[0].workers == s.stages[0].workers && s'.stages[0].closerDone == s.stages[0].closerDone
  {
    CallControl(s, k, c);
  }

  lemma CallDecreases(s: State, k: nat, c: CallStep)
    requires Inv(s) && CallEnabled(s, k, c)
    ensures var s' := CallApply(s, k, c); |s'.stages| == STAGES && Measure(s') < Measure(s)
  {
    CallMovesOn(s, k, c);
    SumUpdate(CallWeight, s.calls, k, CallApply(s, k, c).calls[k]);
  }

  // A step of Shutdown moves its caller on and touches nothing else that counts.
  lemma ShutMovesOn(s: State, h: nat, x: ShutStep)
    requires Inv(s) && ShutEnabled(s, h, x)
    ensures var s' := ShutApply(s, h, x);
      && |s'.stages| == STAGES && h < |s'.shuts| && s'.shuts == s.shuts[h := s'.shuts[h]]
      && ShutWeight(s'.shuts[h]) < ShutWeight(s.shuts[h])
      && s'.started == s.started && s'.calls == s.calls
      && forall i :: 0 <= i < STAGES ==>
           s'.stages[i].buf == s.stages[i].buf && s'.stages[i].workers == s.stages[i].workers &&
               s'.stages[i].closerDone == s.stages[i].closerDone
  {
    ShutControl(s, h, x);
  }

  lemma ShutDecreases(s: State, h: nat, x: ShutStep)
    requires Inv(s) && ShutEnabled(s, h, x)
    ensures var s' := ShutApply(s, h, x); |s'.stages| == STAGES && Measure(s') < Measure(s)
  {
    ShutMovesOn(s, h, x);
    SumUpdate(ShutWeight, s.shuts, h, ShutApply(s, h, x).shuts[h]);
  }

  lemma StageWeightUpdate(hops: nat, st: Stage, w: nat, pc: Worker, buf: seq<JobId>)
    requires hops >= 2 && w < |st.workers|
    ensures StageWeight(hops, st.(buf := buf, workers := st.workers[w := pc])) + WorkerWeight(hops, st.workers[w])
         == StageWeight(hops, st) + WorkerWeight(hops, pc)
  {
    SumUpdate(pc => WorkerWeight(hops, pc), st.workers, w, pc);
  }

  // What a step that stays inside stage i does to the rest, and to its own stage.
  lemma LocalWork(s: State, i: nat, w: nat, x: WorkStep)
    requires Inv(s) && WorkEnabled(s, i, w, x) && !x.Send?
    ensures var s', st := WorkApply(s, i, w, x), s.stages[i];
      && |s'.stages| == STAGES && s'.started == s.started && s'.calls == s.calls && s'.shuts == s.shuts
      && s'.stages == s.stages[i := s'.stages[i]]
      && |s'.stages[i].workers| == |st.workers|
      && s'.stages[i] == st.(buf := s'.stages[i].buf, workers := st.workers[w := s'.stages[i].workers[w]])
      && var h := if i == 0 then 8 else if i == 1 then 5 else 2;
         h * |s'.stages[i].buf| + WorkerWeight(h, s'.stages[i].workers[w]) < h * |st.buf| +
             WorkerWeight(h, st.workers[w])
  {
    assert WorkerOk(s, i, w);
  }

  lemma LocalWorkDecreases(s: State, i: nat, w: nat, x: WorkStep)
    requires Inv(s) && WorkEnabled(s, i, w, x) && !x.Send?
    ensures var s' := WorkApply(s, i, w, x); |s'.stages| == STAGES && Measure(s') < Measure(s)
  {
    LocalWork(s, i, w, x);
    var st' := WorkApply(s, i, w, x).stages[i];
    StageWeightUpdate(if i == 0 then 8 else if i == 1 then 5 else 2, s.stages[i], w, st'.workers[w], st'.buf);
  }

  lemma SendDecreases(s: State, i: nat, w: nat)
    requires Inv(s) && WorkEnabled(s, i, w, Send)
    ensures var s' := WorkApply(s, i, w, Send); |s'.stages| == STAGES && Measure(s') < Measure(s)
  {
    NextOpen(s, i, w);
    StageWeightUpdate(if i == 0 then 8 else 5, s.stages[i], w, Idle, s.stages[i].buf);
  }

  lemma CloseOutDecreases(s: State, i: nat)
    requires Inv(s) && CloseOutEnabled(s, i)
    ensures var s' := CloseOutApply(s, i); |s'.stages| == STAGES && Measure(s') < Measure(s)
  {
    CloseOutControl(s, i);
  }

  lemma StepDecreases(s: State, a: Action)
    requires Inv(s) && Enabled(s, a)
    ensures |Apply(s, a).stages| == STAGES && Measure(Apply(s, a)) < Measure(s)
  {
    match a
    case Start =>
    case Call(k, c) => CallDecreases(s, k, c);
    case Shut(h, x) => ShutDecreases(s, h, x);
    case Work(i, w, x) => if x.Send? { SendDecreases(s, i, w); } else { LocalWorkDecreases(s, i, w, x); }
    case CloseOut(i) => CloseOutDecreases(s, i);
  }

  /** No run is longer than the measure of the state it starts in. */
  lemma {:induction false} RunsAreFinite(s0: State, run: seq<Action>, s: State)
    requires Inv(s0) && Reaches(s0, run, s)
    ensures |s.stages| == STAGES && |run| + Measure(s) <= Measure(s0)
    decreases |run|
  {
    if run != [] {
      StepDecreases(s0, run[0]);
      InvStep(s0, run[0]);
      RunsAreFinite(Apply(s0, run[0]), run[1..], s);
    }
  }

  predicate Internal(a: Action) {
    a.Work? || a.CloseOut?
  }

  // Steps taken only because a context is cancelled or a timeout has run out.
  predicate Cancelling(a: Action) {
    match a
    case Call(_, c) => c.SeeDeadCtx? || c.SeeCtxDone?
    case Shut(_, x) => x.TimeOut?
    case Work(_, _, x) => x.ExitCancelled?
    case _ => false
  }

  // The step of a stage function that returns an error is taken only while it runs.
  predicate FailsRunning(s: State, a: Action) {
    a.Work? && (a.work.Fail? || a.work.Succeed?) ==>
      HasWorker(s, a.i, a.w) && s.stages[a.i].workers[a.w].Running? && a.work.Fail?
  }

  // A worker with something to do can do it, or the stage it waits for can.
  lemma Unblock(s: State, i: nat, w: nat) returns (a: Action)
    requires Inv(s) && s.started && HasWorker(s, i, w) && !s.stages[i].workers[w].Exited?
    requires s.stages[i].workers[w].Idle? ==> s.stages[i].buf != [] || s.stages[i].closed
    ensures Enabled(s, a) && Internal(a) && !Cancelling(a) && FailsRunning(s, a)
    decreases STAGES - i
  {
    assert ChanOk(s, i) && WorkerOk(s, i, w);
    match s.stages[i].workers[w]
    case Idle => a := Work(i, w, if s.stages[i].buf != [] then Receive else ExitClosed);
    case Running(_) => a := Work(i, w, Fail);
    case Sending(_) =>
      if s.baseDone {
        a := Work(i, w, Drop);
      } else if SendReady(s.stages[i + 1]) {
        a := Work(i, w, Send);
      } else {
        assert ChanOk(s, i + 1) && WorkerOk(s, i + 1, 0);
        a := Unblock(s, i + 1, 0);
      }
  }

  /** Once ingest is closed, some worker or closer can step until all of them are done: full buffers
      downstream, or a hard cancel with no receiver left, do not get in the way. */
  lemma DrainProgress(s: State) returns (a: Action)
    requires Inv(s) && s.started && s.once == OnceDone && !Drained(s)
    ensures Enabled(s, a) && Internal(a) && !Cancelling(a) && FailsRunning(s, a)
  {
    var i := if !s.stages[0].closerDone then 0 else if !s.stages[1].closerDone then 1 else 2;
    if AllExited(s.stages[i].workers) {
      a := CloseOut(i);
    } else {
      var w :| 0 <= w < |s.stages[i].workers| && !s.stages[i].workers[w].Exited?;
      a := Unblock(s, i, w);
    }
  }

  // Whoever holds mu can take its next step, cancelled or not.
  lemma LockHolderMoves(s: State) returns (a: Action)
    requires Inv(s) && s.lock != Free
    ensures Enabled(s, a) && !Cancelling(a) && (a.Call? || a.Shut?)
    ensures a.Call? ==> a.k < |s.calls| && s.calls[a.k] != Calling && !s.calls[a.k].Returned?
  {
    match s.lock
    case HeldByCall(k) =>
      assert CallOk(s, k);
      if s.calls[k].Admitted? {
        a := Call(k, if SendReady(s.stages[0]) then Deliver else SeeFull);
      } else {
        a := Call(k, if s.stopped then SeeStopped else SeeRunning);
      }
    case HeldByShut(h) =>
      assert ShutOk(s, h);
      a := Shut(h, if s.shuts[h].Holding? then SetStopped else if s.shuts[h].StopSet? then CloseIngest else LeaveOnce);
  }

  lemma CallMoves(s: State, k: nat) returns (a: Action)
    requires Inv(s) && k < |s.calls| && !s.calls[k].Returned?
    ensures Enabled(s, a) && !Cancelling(a) && (a.Call? || a.Shut?)
    ensures a.Call? ==> a.k == k || (a.k < |s.calls| && s.calls[a.k] != Calling && !s.calls[a.k].Returned?)
  {
    if s.calls[k].Calling? {
      a := Call(k, if s.started then MakeJob else SeeNotStarted);
    } else if s.lock == Free {
      assert CallOk(s, k);
      a := Call(k, LockMu);
    } else {
      a := LockHolderMoves(s);
    }
  }

  lemma ShutMoves(s: State, h: nat) returns (a: Action)
    requires Inv(s) && h < |s.shuts| && !s.shuts[h].ReturnedUnstarted? && !s.shuts[h].ShutReturned?
    ensures Enabled(s, a) && !Cancelling(a) && !a.Start? && FailsRunning(s, a)
    ensures a.Call? ==> a.k < |s.calls| && s.calls[a.k] != Calling && !s.calls[a.k].Returned?
  {
    assert ShutOk(s, h);
    if s.lock != Free {
      a := LockHolderMoves(s);
    } else if s.once == NotRun {
      a := Shut(h, EnterOnce);
    } else if s.once.RunningBy? {
      assert ShutOk(s, s.once.shut);
      a := Shut(s.once.shut, LockMuInOnce);
    } else if s.shuts[h].Ready? {
      a := Shut(h, SkipOnce);
    } else if s.shuts[h].PastOnce? && !s.started {
      a := Shut(h, SeeUnstarted);
    } else if Drained(s) {
      a := Shut(h, if s.shuts[h].PastOnce? then SeeDrained else SeeDrainedHard);
    } else {
      a := DrainProgress(s);
    }
  }

  // Every call of Enqueue and of Shutdown has returned, and after a Shutdown every worker and closer is done.
  predicate Finished(s: State) {
    && (forall k :: 0 <= k < |s.calls| ==> s.calls[k].Returned?)
    && (forall h :: 0 <= h < |s.shuts| ==> s.shuts[h].ReturnedUnstarted? || s.shuts[h].ShutReturned?)
    && (|s.shuts| > 0 ==> |s.stages| == STAGES && Drained(s))
  }

  lemma StuckIsFinished(s: State)
    requires Inv(s) && forall a :: Enabled(s, a) ==> Cancelling(a)
    ensures Finished(s)
  {
    forall k | 0 <= k < |s.calls| ensures s.calls[k].Returned? {
      if !s.calls[k].Returned? { var a := CallMoves(s, k); }
    }
    forall h | 0 <= h < |s.shuts| ensures s.shuts[h].ReturnedUnstarted? || s.shuts[h].ShutReturned? {
      if !(s.shuts[h].ReturnedUnstarted? || s.shuts[h].ShutReturned?) { var a := ShutMoves(s, h); }
    }
    if |s.shuts| > 0 && !Drained(s) {
      assert ShutOk(s, 0) && !Enabled(s, Action.Start);
      var a := DrainProgress(s);
    }
  }

  /** Deadlock freedom, without counting on any cancellation or timeout: where nothing else can step, every
      call of Enqueue and of Shutdown has returned, and if Shutdown was called every worker and closer is
      done. */
  lemma StuckMeansFinished(s: State)
    requires Reachable(s) && forall a :: Enabled(s, a) ==> Cancelling(a)
    ensures Finished(s)
  {
    Safe(s);
    StuckIsFinished(s);
  }

  /** Hence every run can be continued, without any cancellation or timeout, to one where everything has
      returned. */
  lemma {:induction false} EveryRunCanFinish(s: State) returns (run: seq<Action>, end: State)
    requires Inv(s)
    ensures Reaches(s, run, end) && Finished(end) && forall a :: a in run ==> !Cancelling(a)
    decreases Measure(s)
  {
    if a :| Enabled(s, a) && !Cancelling(a) {
      StepDecreases(s, a);
      InvStep(s, a);
      var rest;
      rest, end := EveryRunCanFinish(Apply(s, a));
      run := [a] + rest;
      assert run[0] == a && run[1..] == rest;
    } else {
      run, end := [], s;
      StuckIsFinished(s);
    }
  }

  // Backpressure.

  function Elements(xs: seq<JobId>): (r: set<JobId>)
    ensures |r| <= |xs|
    ensures forall x :: x in xs ==> x in r
  {
    if xs == [] then {} else {xs[0]} + Elements(xs[1..])
  }

  function HeldJobs(ws: seq<Worker>): (r: set<JobId>)
    ensures |r| <= |ws|
    ensures forall w, j :: 0 <= w < |ws| && Holds(ws[w], j) ==> j in r
  {
    if ws == [] then {}
    else if ws[0].Running? || ws[0].Sending? then {ws[0].job} + HeldJobs(ws[1..])
    else HeldJobs(ws[1..])
  }

  function Room(st: Stage): nat {
    st.cap + |st.workers|
  }

  predicate Unretired(s: State, j: JobId) {
    j < |s.calls| && j < |s.jobs| && s.calls[j] == Returned(Accepted) && !s.jobs[j].place.Gone?
  }

  function Live(s: State): set<JobId> {
    set j: nat | j < |s.jobs| && Unretired(s, j)
  }

  // The jobs in the buffers and with the workers.
  function InPipe(s: State): set<JobId>
    requires |s.stages| == STAGES
  {
    Elements(s.stages[0].buf) + HeldJobs(s.stages[0].workers)
    + Elements(s.stages[1].buf) + HeldJobs(s.stages[1].workers)
    + Elements(s.stages[2].buf) + HeldJobs(s.stages[2].workers)
  }

  lemma InPipeSize(s: State)
    requires |s.stages| == STAGES && forall i :: 0 <= i < STAGES ==> ChanOk(s, i)
    ensures |InPipe(s)| <= Room(s.stages[0]) + Room(s.stages[1]) + Room(s.stages[2])
  {
    assert ChanOk(s, 0) && ChanOk(s, 1) && ChanOk(s, 2);
  }

  lemma LiveInPipe(s: State, j: JobId)
    requires Inv(s) && j in Live(s)
    ensures j in InPipe(s)
  {
    assert PlaceOk(s, j);
  }

  lemma LiveFits(s: State)
    requires Inv(s)
    ensures |Live(s)| <= Room(s.stages[0]) + Room(s.stages[1]) + Room(s.stages[2])
    ensures forall k :: Enabled(s, Call(k, SeeFull)) ==> |s.stages[0].buf| == s.stages[0].cap
  {
    assert ChanOk(s, 0);
    forall j | j in Live(s) ensures j in InPipe(s) { LiveInPipe(s, j); }
    SubsetSize(Live(s), InPipe(s));
    InPipeSize(s);
  }

  // The room that options ask for at one stage.
  function RoomAsked(workers: int, buffer: int): nat {
    (if workers < 1 then 1 else workers) + (if buffer < 1 then 1 else buffer)
  }

  /** Whatever happens, accepted jobs that have not retired never outnumber the buffers and the workers asked for
      together, and Enqueue says the queue is full exactly when it is past its checks and ingest holds as many
      jobs as the buffer asked for. */
  lemma Backpressure(o: Options, calls: nat, shuts: nat, run: seq<Action>, s: State)
    requires |o.workers| == |o.buffers| == STAGES && Reaches(Init(o, calls, shuts), run, s)
    ensures |Live(s)| <= RoomAsked(o.workers[0], o.buffers[0]) + RoomAsked(o.workers[1], o.buffers[1]) +
        RoomAsked(o.workers[2], o.buffers[2])
    ensures |s.stages| == STAGES && forall k: nat :: k < |s.calls| ==>
      (Enabled(s, Call(k, SeeFull)) <==>
         s.calls[k] == Admitted && |s.stages[0].buf| == if o.buffers[0] < 1 then 1 else o.buffers[0])
  {
    InitInv(o, calls, shuts);
    ReachableInv(Init(o, calls, shuts), run, s);
    SizesAreOptions(o, calls, shuts, run, s);
    LiveFits(s);
    forall k: nat | k < |s.calls|
      ensures Enabled(s, Call(k, SeeFull)) <==> s.calls[k] == Admitted && |s.stages[0].buf| == s.stages[0].cap
    {
      FullIff(s, k);
    }
  }

  lemma FullIff(s: State, k: nat)
    requires Inv(s) && k < |s.calls|
    ensures Enabled(s, Call(k, SeeFull)) <==> s.calls[k] == Admitted && |s.stages[0].buf| == s.stages[0].cap
  {
    assert ChanOk(s, 0) && CallOk(s, k);
  }

  lemma SubsetSize<T>(a: set<T>, b: set<T>)
    requires a <= b
    ensures |a| <= |b|
  {
    assert b == a + (b - a);
  }
}
