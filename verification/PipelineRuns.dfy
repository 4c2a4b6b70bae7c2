/** The methods of Pool are runs of the transition system, so whatever is proved of its runs holds of them. */
module PipelineRuns {
  import opened Pipeline
  import opened PipelineSafety
  import opened PipelineCode

  lemma Cons(s: State, a: Action, run: seq<Action>, s': State)
    requires Enabled(s, a) && Reaches(Apply(s, a), run, s')
    ensures Reaches(s, [a] + run, s')
  {
    assert ([a] + run)[1..] == run;
  }

  lemma One(s: State, a: Action)
    requires Enabled(s, a)
    ensures Reaches(s, [a], Apply(s, a))
  {
    assert Reaches(Apply(s, a), [], Apply(s, a));
    Cons(s, a, [], Apply(s, a));
  }

  function EnqueueRun(k: nat, out: Outcome): seq<Action> {
    match out
    case CtxDead => [Call(k, SeeDeadCtx)]
    case NotStarted => [Call(k, SeeNotStarted)]
    case Stopped => [Call(k, MakeJob)] + ([Call(k, LockMu)] + [Call(k, SeeStopped)])
    case CtxDone => [Call(k, MakeJob)] + ([Call(k, LockMu)] + ([Call(k, SeeRunning)] + [Call(k, SeeCtxDone)]))
    case Full => [Call(k, MakeJob)] + ([Call(k, LockMu)] + ([Call(k, SeeRunning)] + [Call(k, SeeFull)]))
    case Accepted => [Call(k, MakeJob)] + ([Call(k, LockMu)] + ([Call(k, SeeRunning)] + [Call(k, Deliver)]))
  }

  // The call has passed `SeeRunning`.
  lemma AdmittedRun(s: State, k: nat, c: CallStep)
    requires Inv(s) && k < |s.calls| && s.calls[k] == Calling && s.lock == Free && s.started && !s.stopped
    requires var s3 := SetCall(s, k, Admitted).(lock := HeldByCall(k)); CallEnabled(s3, k, c)
    ensures var s3 := SetCall(s, k, Admitted).(lock := HeldByCall(k));
      Reaches(s, [Call(k, MakeJob)] + ([Call(k, LockMu)] + ([Call(k, SeeRunning)] + [Call(k, c)])), CallApply(s3, k, c))
  {
    var s1, s2 := SetCall(s, k, Made), SetCall(s, k, Locked).(lock := HeldByCall(k));
    var s3 := SetCall(s, k, Admitted).(lock := HeldByCall(k));
    assert Apply(s, Call(k, MakeJob)) == s1;
    assert Apply(s1, Call(k, LockMu)) == s2 by { assert s1.calls[k := Locked] == s2.calls; }
    assert Apply(s2, Call(k, SeeRunning)) == s3 by { assert s2.calls[k := Admitted] == s3.calls; }
    One(s3, Call(k, c));
    Cons(s2, Call(k, SeeRunning), [Call(k, c)], CallApply(s3, k, c));
    Cons(s1, Call(k, LockMu), [Call(k, SeeRunning)] + [Call(k, c)], CallApply(s3, k, c));
    Cons(s, Call(k, MakeJob), [Call(k, LockMu)] + ([Call(k, SeeRunning)] + [Call(k, c)]), CallApply(s3, k, c));
  }

  lemma StoppedRun(s: State, k: nat)
    requires Inv(s) && k < |s.calls| && s.calls[k] == Calling && s.lock == Free && s.started && s.stopped
    ensures Reaches(s, EnqueueRun(k, Stopped), AfterEnqueue(s, k, Stopped))
  {
    var s1, s2 := SetCall(s, k, Made), SetCall(s, k, Locked).(lock := HeldByCall(k));
    var s3 := AfterEnqueue(s, k, Stopped);
    assert Apply(s, Call(k, MakeJob)) == s1;
    assert Apply(s1, Call(k, LockMu)) == s2 by { assert s1.calls[k := Locked] == s2.calls; }
    assert Apply(s2, Call(k, SeeStopped)) == s3 by { assert s2.calls[k := Returned(Stopped)] == s3.calls; }
    One(s2, Call(k, SeeStopped));
    Cons(s1, Call(k, LockMu), [Call(k, SeeStopped)], s3);
    Cons(s, Call(k, MakeJob), [Call(k, LockMu)] + [Call(k, SeeStopped)], s3);
  }

  lemma AdmittedEnd(s: State, k: nat, out: Outcome)
    requires Inv(s) && k < |s.calls| && s.lock == Free && !s.stages[0].closed
    requires out == CtxDone || (out == Accepted && |s.stages[0].buf| < s.stages[0].cap) ||
        (out == Full && |s.stages[0].buf| >= s.stages[0].cap)
    ensures var s3 := SetCall(s, k, Admitted).(lock := HeldByCall(k));
      var c := if out == CtxDone then SeeCtxDone else if out == Accepted then Deliver else SeeFull;
      CallEnabled(s3, k, c) && CallApply(s3, k, c) == AfterEnqueue(s, k, out)
  {
    var s3 := SetCall(s, k, Admitted).(lock := HeldByCall(k));
    assert s3.calls[k := Returned(out)] == s.calls[k := Returned(out)];
  }

  /** Enqueue, uninterrupted, is a run of the transition system. */
  lemma EnqueueIsRun(s: State, k: nat, ctxDead: bool, ctxDone: bool)
    requires Inv(s) && k < |s.calls| && s.calls[k] == Calling && s.lock == Free
    ensures var out := OutcomeOf(s, ctxDead, ctxDone); Reaches(s, EnqueueRun(k, out), AfterEnqueue(s, k, out))
  {
    var out := OutcomeOf(s, ctxDead, ctxDone);
    match out
    case CtxDead => One(s, Call(k, SeeDeadCtx));
    case NotStarted => One(s, Call(k, SeeNotStarted));
    case Stopped => StoppedRun(s, k);
    case CtxDone => AdmittedEnd(s, k, out); AdmittedRun(s, k, SeeCtxDone);
    case Full => AdmittedEnd(s, k, out); AdmittedRun(s, k, SeeFull);
    case Accepted => AdmittedEnd(s, k, out); AdmittedRun(s, k, Deliver);
  }

  // Shutdown once it holds mu inside the sync.Once.
  function Held(s: State, h: nat): State
    requires h < |s.shuts|
  {
    SetShut(s, h, Holding).(once := RunningBy(h), lock := HeldByShut(h))
  }

  lemma HeldRun(s: State, h: nat)
    requires |s.stages| == STAGES && h < |s.shuts| && s.lock == Free && !s.stages[0].closed
    ensures Reaches(Held(s, h), [Shut(h, SetStopped)] + ([Shut(h, CloseIngest)] + [Shut(h, LeaveOnce)]),
        AfterOnce(s, h))
  {
    var s2 := Held(s, h);
    var s3 := SetShut(s, h, StopSet).(once := RunningBy(h), lock := HeldByShut(h), stopped := true);
    var s4 := SetShut(Close(s, 0), h, IngestClosed).(once := RunningBy(h), lock := HeldByShut(h), stopped := true);
    var s5 := AfterOnce(s, h);
    assert Apply(s2, Shut(h, SetStopped)) == s3 by { assert s2.shuts[h := StopSet] == s3.shuts; }
    assert Apply(s3, Shut(h, CloseIngest)) == s4 by { assert s3.shuts[h := IngestClosed] == s4.shuts; }
    assert Apply(s4, Shut(h, LeaveOnce)) == s5 by { assert s4.shuts[h := PastOnce] == s5.shuts; }
    One(s4, Shut(h, LeaveOnce));
    Cons(s3, Shut(h, CloseIngest), [Shut(h, LeaveOnce)], s5);
    Cons(s2, Shut(h, SetStopped), [Shut(h, CloseIngest)] + [Shut(h, LeaveOnce)], s5);
  }

  /** The body of shutdownOnce.Do, uninterrupted, is a run of the transition system. */
  lemma ShutdownOnceIsRun(s: State, h: nat)
    requires Inv(s) && h < |s.shuts| && s.shuts[h] == Ready && s.once == NotRun && s.lock == Free
    ensures Reaches(s, [Shut(h, EnterOnce)] +
        ([Shut(h, LockMuInOnce)] + ([Shut(h, SetStopped)] + ([Shut(h, CloseIngest)] + [Shut(h, LeaveOnce)]))),
                    AfterOnce(s, h))
  {
    var s1, s2 := SetShut(s, h, InOnce).(once := RunningBy(h)), Held(s, h);
    var rest := [Shut(h, SetStopped)] + ([Shut(h, CloseIngest)] + [Shut(h, LeaveOnce)]);
    assert !s.stages[0].closed;
    HeldRun(s, h);
    assert Apply(s, Shut(h, EnterOnce)) == s1;
    assert Apply(s1, Shut(h, LockMuInOnce)) == s2 by { assert s1.shuts[h := Holding] == s2.shuts; }
    Cons(s1, Shut(h, LockMuInOnce), rest, AfterOnce(s, h));
    Cons(s, Shut(h, EnterOnce), [Shut(h, LockMuInOnce)] + rest, AfterOnce(s, h));
  }

  function RoundRun(i: nat, w: nat, went: Went): seq<Action> {
    match went
    case BaseCancelled => [Work(i, w, ExitCancelled)]
    case InputClosed => [Work(i, w, ExitClosed)]
    case StageFailed => [Work(i, w, Receive)] + [Work(i, w, WorkStep.Fail)]
    case Ended => [Work(i, w, Receive)] + [Work(i, w, Succeed)]
    case GaveUp => [Work(i, w, Receive)] + ([Work(i, w, Succeed)] + [Work(i, w, Drop)])
    case Forwarded => [Work(i, w, Receive)] + ([Work(i, w, Succeed)] + [Work(i, w, Send)])
  }

  // The worker has received the job.
  function Received(s: State, i: nat, w: nat): State
    requires WorkEnabled(s, i, w, Receive)
  {
    WorkApply(s, i, w, Receive)
  }

  lemma ReturnedRound(s: State, i: nat, w: nat, went: Went)
    requires Inv(s) && WorkEnabled(s, i, w, Receive) && (went == StageFailed || (went == Ended && i + 1 == STAGES))
    ensures var x := if went == StageFailed then WorkStep.Fail else Succeed;
      WorkEnabled(Received(s, i, w), i, w, x) && WorkApply(Received(s, i, w), i, w, x) == AfterRound(s, i, w, went)
  {
    var s1 := Received(s, i, w);
    assert ChanOk(s, i) && LogOk(s, s.stages[i].buf[0]);
    var st := s.stages[i];
    assert s1.stages[i].workers[w := Idle] == st.workers[w := Idle];
    var x := if went == StageFailed then WorkStep.Fail else Succeed;
    var s2, s' := WorkApply(s1, i, w, x), AfterRound(s, i, w, went);
    assert s2.stages == s'.stages;
    assert s2.jobs == s'.jobs;
  }

  lemma DroppedRound(s: State, i: nat, w: nat)
    requires Inv(s) && WorkEnabled(s, i, w, Receive) && i + 1 < STAGES && s.baseDone
    ensures WorkEnabled(Received(s, i, w), i, w, Succeed)
    ensures var s2 := WorkApply(Received(s, i, w), i, w, Succeed);
      WorkEnabled(s2, i, w, Drop) && WorkApply(s2, i, w, Drop) == AfterRound(s, i, w, GaveUp)
  {
    var s1 := Received(s, i, w);
    assert ChanOk(s, i) && LogOk(s, s.stages[i].buf[0]);
    var s2 := WorkApply(s1, i, w, Succeed);
    var s3, s' := WorkApply(s2, i, w, Drop), AfterRound(s, i, w, GaveUp);
    assert s3.stages[i].workers == s'.stages[i].workers;
    assert s3.stages == s'.stages;
    assert s3.jobs == s'.jobs;
  }

  lemma PassedRound(s: State, i: nat, w: nat)
    requires Inv(s) && WorkEnabled(s, i, w, Receive) && i + 1 < STAGES && |s.stages[i + 1].buf| < s.stages[i + 1].cap
    ensures WorkEnabled(Received(s, i, w), i, w, Succeed)
    ensures var s2 := WorkApply(Received(s, i, w), i, w, Succeed);
      WorkEnabled(s2, i, w, Send) && WorkApply(s2, i, w, Send) == AfterRound(s, i, w, Forwarded)
  {
    NextOpen(s, i, w);
    var s1 := Received(s, i, w);
    assert ChanOk(s, i) && LogOk(s, s.stages[i].buf[0]);
    var s2 := WorkApply(s1, i, w, Succeed);
    var s3, s' := WorkApply(s2, i, w, Send), AfterRound(s, i, w, Forwarded);
    assert s3.stages[i].workers == s'.stages[i].workers;
    assert s3.stages == s'.stages;
    assert s3.jobs == s'.jobs;
  }

  lemma LongRun(s: State, i: nat, w: nat, went: Went)
    requires Inv(s) && WorkEnabled(s, i, w, Receive) && i + 1 < STAGES
    requires (went == GaveUp && s.baseDone) || (went == Forwarded && |s.stages[i + 1].buf| < s.stages[i + 1].cap)
    ensures Reaches(s, RoundRun(i, w, went), AfterRound(s, i, w, went))
  {
    var x := if went == GaveUp then Drop else Send;
    if went == GaveUp { DroppedRound(s, i, w); } else { PassedRound(s, i, w); }
    var s1, s' := Received(s, i, w), AfterRound(s, i, w, went);
    var s2 := WorkApply(s1, i, w, Succeed);
    One(s2, Work(i, w, x));
    Cons(s1, Work(i, w, Succeed), [Work(i, w, x)], s');
    Cons(s, Work(i, w, Receive), [Work(i, w, Succeed)] + [Work(i, w, x)], s');
  }

  /** A round of runStage, uninterrupted, is a run of the transition system. */
  lemma RoundIsRun(s: State, i: nat, w: nat, c: Choice)
    requires Inv(s) && s.started && HasWorker(s, i, w)
    requires s.stages[i].workers[w] == Idle && Unblocked(s.stages, s.baseDone, i, c)
    ensures var went := WentOf(s, i, c.preferDone, c.fnOk, c.giveUp);
      CanRound(s, i, w) && Reaches(s, RoundRun(i, w, went), AfterRound(s, i, w, went))
  {
    assert ChanOk(s, i);
    var went := WentOf(s, i, c.preferDone, c.fnOk, c.giveUp);
    if went.BaseCancelled? {
      One(s, Work(i, w, ExitCancelled));
    } else if went.InputClosed? {
      One(s, Work(i, w, ExitClosed));
    } else if went.StageFailed? || went.Ended? {
      ReturnedRound(s, i, w, went);
      var x := if went == StageFailed then WorkStep.Fail else Succeed;
      One(Received(s, i, w), Work(i, w, x));
      Cons(s, Work(i, w, Receive), [Work(i, w, x)], AfterRound(s, i, w, went));
    } else {
      LongRun(s, i, w, went);
    }
  }

  lemma {:induction false} Then(s0: State, a: seq<Action>, s1: State, b: seq<Action>, s2: State)
    requires Reaches(s0, a, s1) && Reaches(s1, b, s2)
    ensures Reaches(s0, a + b, s2)
    decreases |a|
  {
    if a == [] {
      assert a + b == b;
    } else {
      assert (a + b)[1..] == a[1..] + b;
      Then(Apply(s0, a[0]), a[1..], s1, b, s2);
    }
  }

  // After a round that did not end the loop the worker is at its select again.
  lemma RoundIdles(s: State, i: nat, w: nat, c: Choice)
    requires CanRound(s, i, w)
    ensures var went := WentOf(s, i, c.preferDone, c.fnOk, c.giveUp);
      var s' := AfterRound(s, i, w, went);
      s'.started == s.started && HasWorker(s', i, w) && s'.stages[i].workers[w] == if Exits(went) then Exited else Idle
  {
    if WentOf(s, i, c.preferDone, c.fnOk, c.giveUp).Forwarded? { assert i != i + 1; }
  }

  /** runStage, uninterrupted for as long as it does not block, is a run of the transition system. */
  lemma {:induction false} RunStageIsRun(s: State, i: nat, w: nat, cs: seq<Choice>) returns (run: seq<Action>)
    requires Inv(s) && s.started && HasWorker(s, i, w) && s.stages[i].workers[w] == Idle
    ensures CanRound(s, i, w) && Reaches(s, run, AfterRounds(s, i, w, cs))
    decreases |cs|
  {
    assert ChanOk(s, i);
    if cs == [] || !Unblocked(s.stages, s.baseDone, i, cs[0]) {
      run := [];
    } else {
      var went := WentOf(s, i, cs[0].preferDone, cs[0].fnOk, cs[0].giveUp);
      var s' := AfterRound(s, i, w, went);
      RoundIsRun(s, i, w, cs[0]);
      RoundIdles(s, i, w, cs[0]);
      run := RoundRun(i, w, went);
      if !Exits(went) {
        ReachableInv(s, run, s');
        var rest := RunStageIsRun(s', i, w, cs[1..]);
        Then(s, run, s', rest, AfterRounds(s, i, w, cs));
        run := run + rest;
      }
    }
  }
}
