/** internal/worker/pool.go as it runs when nothing interrupts it: the methods of Pipeline on its own fields.
    PipelineRuns shows that each of them is a run of the transition system.  Contexts and stage functions are
    parameters. */
module PipelineCode {
  import opened Pipeline

  // What Enqueue returns: `ctxDead` is ctx.Err() at the top, `ctxDone` that the select takes ctx.Done().
  function OutcomeOf(s: State, ctxDead: bool, ctxDone: bool): Outcome
    requires |s.stages| == STAGES
  {
    if ctxDead then CtxDead
    else if !s.started then NotStarted
    else if s.stopped then Stopped
    else if ctxDone then CtxDone
    else if |s.stages[0].buf| < s.stages[0].cap then Accepted
    else Full
  }

  // Only an accepted job goes anywhere; one that was built and rejected has its context cancelled.
  function AfterEnqueue(s: State, k: nat, out: Outcome): State
    requires |s.stages| == STAGES && k < |s.calls| && k < |s.jobs|
  {
    var s' := SetCall(s, k, Returned(out));
    match out
    case CtxDead => s'
    case NotStarted => s'
    case Accepted =>
      SetJob(Push(s', 0, k), k, s.jobs[k].(place := InChan(0), rank := |s.accepted|)).(accepted := s.accepted + [k])
    case _ => SetJob(s', k, s.jobs[k].(cancelled := true))
  }

  function AfterOnce(s: State, h: nat): State
    requires |s.stages| == STAGES && h < |s.shuts|
  {
    SetShut(SetStage(s, 0, s.stages[0].(closed := true)), h, PastOnce).(stopped := true, once := OnceDone)
  }

  // What a round of runStage comes to.
  datatype Went = BaseCancelled | InputClosed | StageFailed | Forwarded | Ended | GaveUp

  predicate Exits(went: Went) {
    went.BaseCancelled? || went.InputClosed? || went.GaveUp?
  }

  // `preferDone` and `giveUp` say which ready case the two selects take, `fnOk` what the stage function returns.
  function WentOf(s: State, i: nat, preferDone: bool, fnOk: bool, giveUp: bool): Went
    requires i < |s.stages|
  {
    if preferDone then BaseCancelled
    else if s.stages[i].buf == [] then InputClosed
    else if !fnOk then StageFailed
    else if i + 1 == STAGES then Ended
    else if giveUp then GaveUp
    else Forwarded
  }

  function PlaceAfter(went: Went, i: nat): Place
    requires !went.BaseCancelled? && !went.InputClosed?
  {
    match went
    case StageFailed => Gone(Failed(i))
    case Ended => Gone(Finished)
    case GaveUp => Gone(Dropped(i))
    case Forwarded => InChan(i + 1)
  }

  function AfterRound(s: State, i: nat, w: nat, went: Went): State
    requires |s.stages| == STAGES && HasWorker(s, i, w)
    requires !went.BaseCancelled? && !went.InputClosed? ==> s.stages[i].buf != [] && s.stages[i].buf[0] < |s.jobs|
    requires went.Forwarded? ==> i + 1 < STAGES
  {
    var st := s.stages[i].(workers := s.stages[i].workers[w := if Exits(went) then Exited else Idle]);
    if went.BaseCancelled? || went.InputClosed? then SetStage(s, i, st)
    else
      var j, place := st.buf[0], PlaceAfter(went, i);
      var was := s.jobs[j];
      var job := was.(place := place, trace := was.trace + [i], cancelled := was.cancelled || place.Gone?);
      var s' := SetJob(SetStage(s, i, st.(buf := st.buf[1..])), j, job);
      if went.Forwarded? then Push(s', i + 1, j)
      else if went.Ended? then s'.(finished := s.finished + [j])
      else s'
  }

  // What the selects and the stage function of one round do.
  datatype Choice = Choice(preferDone: bool, fnOk: bool, giveUp: bool)

  // The worker is there and what it may receive is a job.
  predicate CanRound(s: State, i: nat, w: nat) {
    && |s.stages| == STAGES && HasWorker(s, i, w)
    && forall p :: 0 <= p < |s.stages[i].buf| ==> s.stages[i].buf[p] < |s.jobs|
  }

  // Neither select of the round blocks; the second one is reached only after the stage function returned nil.
  predicate Unblocked(stages: seq<Stage>, baseDone: bool, i: nat, c: Choice)
    requires |stages| == STAGES && i < STAGES
  {
    && (c.preferDone ==> baseDone)
    && (c.preferDone || stages[i].closed || stages[i].buf != [])
    && (!c.preferDone && stages[i].buf != [] && c.fnOk && i + 1 < STAGES ==>
          if c.giveUp then baseDone else |stages[i + 1].buf| < stages[i + 1].cap)
  }

  lemma RoundKeeps(s: State, i: nat, w: nat, c: Choice)
    requires CanRound(s, i, w)
    ensures CanRound(AfterRound(s, i, w, WentOf(s, i, c.preferDone, c.fnOk, c.giveUp)), i, w)
  {
  }

  // The loop of runStage for as long as it does not block and there are choices left.
  function AfterRounds(s: State, i: nat, w: nat, cs: seq<Choice>): State
    requires CanRound(s, i, w)
    decreases |cs|
  {
    if cs == [] || !Unblocked(s.stages, s.baseDone, i, cs[0]) then s
    else
      var went := WentOf(s, i, cs[0].preferDone, cs[0].fnOk, cs[0].giveUp);
      RoundKeeps(s, i, w, cs[0]);
      if Exits(went) then AfterRound(s, i, w, went) else AfterRounds(AfterRound(s, i, w, went), i, w, cs[1..])
  }

  class Pool {
    var started: bool
    var stopped: bool
    var baseDone: bool
    var stages: seq<Stage>
    // The mutex, the sync.Once, and the history of calls and jobs.
    ghost var lock: Lock
    ghost var once: Once
    ghost var calls: seq<CallPc>
    ghost var shuts: seq<ShutPc>
    ghost var jobs: seq<Job>
    ghost var accepted: seq<JobId>
    ghost var finished: seq<JobId>

    ghost function Abs(): State
      reads this
    {
      State(started, stopped, baseDone, false, lock, once, stages, calls, shuts, jobs, accepted, finished)
    }

    // NewPipeline with applyDefaults.
    constructor (o: Options, ghost callers: nat, ghost closers: nat)
      requires |o.workers| == |o.buffers| == STAGES
      ensures Abs() == Init(o, callers, closers) && |stages| == STAGES && !started && !stopped && !baseDone
      ensures forall i :: 0 <= i < STAGES ==>
        && |stages[i].workers| == (if o.workers[i] < 1 then 1 else o.workers[i])
        && stages[i].cap == (if o.buffers[i] < 1 then 1 else o.buffers[i])
        && stages[i].buf == [] && !stages[i].closed && !stages[i].closerDone
        && forall w :: 0 <= w < |stages[i].workers| ==> stages[i].workers[w] == Idle
    {
      started, stopped, baseDone := false, false, false;
      stages := seq(STAGES, i requires 0 <= i < STAGES => NewStage(o.workers[i], o.buffers[i]));
      lock, once := Free, NotRun;
      calls, shuts := seq(callers, _ => Calling), seq(closers, _ => Ready);
      jobs := seq(callers, _ => Job(Nowhere, [], false, 0));
      accepted, finished := [], [];
    }

    method Start()
      modifies this
      ensures Abs() == old(Abs()).(started := true)
    {
      started := true;
    }

    // mu is taken and given back within the call.
    method Enqueue(k: nat, ctxDead: bool, ctxDone: bool) returns (out: Outcome)
      requires |stages| == STAGES && k < |calls| == |jobs|
      modifies this
      ensures out == OutcomeOf(old(Abs()), ctxDead, ctxDone) && Abs() == AfterEnqueue(old(Abs()), k, out)
    {
      if ctxDead {
        out := CtxDead;
      } else if !started {
        out := NotStarted;
      } else {
        if stopped {
          out := Stopped;
        } else if ctxDone {
          out := CtxDone;
        } else if |stages[0].buf| < stages[0].cap {
          stages := stages[0 := stages[0].(buf := stages[0].buf + [k])];
          out := Accepted;
          jobs := jobs[k := jobs[k].(place := InChan(0), rank := |accepted|)];
          accepted := accepted + [k];
        } else {
          out := Full;
        }
        if out != Accepted {
          jobs := jobs[k := jobs[k].(cancelled := true)];
        }
      }
      calls := calls[k := Returned(out)];
    }

    // The body of shutdownOnce.Do.
    method ShutdownOnce(ghost h: nat)
      requires |stages| == STAGES && h < |shuts|
      modifies this
      ensures Abs() == AfterOnce(old(Abs()), h)
    {
      stopped := true;
      stages := stages[0 := stages[0].(closed := true)];
      shuts, once := shuts[h := PastOnce], OnceDone;
    }

    // runStage: the loop goes on until the worker exits, and stops here where it would block.
    method RunStage(i: nat, w: nat, cs: seq<Choice>) returns (exited: bool)
      requires CanRound(Abs(), i, w)
      modifies this
      ensures Abs() == AfterRounds(old(Abs()), i, w, cs)
    {
      exited := false;
      var n := 0;
      while n < |cs| && Unblocked(stages, baseDone, i, cs[n])
        invariant n <= |cs| && CanRound(Abs(), i, w)
        invariant AfterRounds(Abs(), i, w, cs[n..]) == AfterRounds(old(Abs()), i, w, cs)
      {
        var c := cs[n];
        assert cs[n..][0] == c && cs[n..][1..] == cs[n + 1..];
        RoundKeeps(Abs(), i, w, c);
        var went := Round(i, w, c.preferDone, c.fnOk, c.giveUp);
        if Exits(went) {
          return true;
        }
        n := n + 1;
      }
    }

    // One round of the loop in runStage that neither of its selects blocks: the worker exits on an empty
    // channel only where that is closed, and on the job base's cancel only where that has happened.
    method Round(i: nat, w: nat, preferDone: bool, fnOk: bool, giveUp: bool) returns (went: Went)
      requires CanRound(Abs(), i, w) && Unblocked(stages, baseDone, i, Choice(preferDone, fnOk, giveUp))
      modifies this
      ensures went == WentOf(old(Abs()), i, preferDone, fnOk, giveUp) && Abs() == AfterRound(old(Abs()), i, w, went)
    {
      if preferDone {
        Move(i, w, Exited);
        return BaseCancelled;
      }
      if |stages[i].buf| == 0 {
        Move(i, w, Exited);
        return InputClosed;
      }
      went := Handle(i, w, fnOk, giveUp);
    }

    // The round once a job is there to be received.
    method Handle(i: nat, w: nat, fnOk: bool, giveUp: bool) returns (went: Went)
      requires |stages| == STAGES && HasWorker(Abs(), i, w) && stages[i].buf != [] && stages[i].buf[0] < |jobs|
      modifies this
      ensures went == WentOf(old(Abs()), i, false, fnOk, giveUp) && Abs() == AfterRound(old(Abs()), i, w, went)
    {
      if !fnOk {
        Retire(i, w, StageFailed);
        return StageFailed;
      }
      if i + 1 == STAGES {
        Retire(i, w, Ended);
        return Ended;
      }
      if giveUp {
        Retire(i, w, GaveUp);
        return GaveUp;
      }
      Forward(i, w);
      return Forwarded;
    }

    // The job is received and goes on to the next channel.
    method Forward(i: nat, w: nat)
      requires |stages| == STAGES && HasWorker(Abs(), i, w) && stages[i].buf != []
      requires stages[i].buf[0] < |jobs| && i + 1 < STAGES
      modifies this
      ensures Abs() == AfterRound(old(Abs()), i, w, Forwarded)
    {
      var j := Take(i);
      stages := stages[i + 1 := stages[i + 1].(buf := stages[i + 1].buf + [j])];
      jobs := jobs[j := jobs[j].(place := InChan(i + 1), trace := jobs[j].trace + [i])];
      Move(i, w, Idle);
      assert stages == old(AfterRound(Abs(), i, w, Forwarded)).stages;
    }

    // The job is received and its context cancelled at the end of the round.
    method Retire(i: nat, w: nat, went: Went)
      requires |stages| == STAGES && HasWorker(Abs(), i, w) && stages[i].buf != [] && stages[i].buf[0] < |jobs|
      requires went.StageFailed? || went.Ended? || went.GaveUp?
      modifies this
      ensures Abs() == AfterRound(old(Abs()), i, w, went)
    {
      var j := Take(i);
      Move(i, w, if went.GaveUp? then Exited else Idle);
      jobs := jobs[j := jobs[j].(place := PlaceAfter(went, i), cancelled := true, trace := jobs[j].trace + [i])];
      if went.Ended? {
        finished := finished + [j];
      }
      assert stages == old(AfterRound(Abs(), i, w, went)).stages;
    }

    method Take(i: nat) returns (j: JobId)
      requires i < |stages| && stages[i].buf != []
      modifies `stages
      ensures j == old(stages)[i].buf[0] && stages == old(stages)[i := old(stages)[i].(buf := old(stages)[i].buf[1..])]
    {
      j := stages[i].buf[0];
      stages := stages[i := stages[i].(buf := stages[i].buf[1..])];
    }

    // The worker goes on at `pc`.
    method Move(i: nat, w: nat, pc: Worker)
      requires HasWorker(Abs(), i, w)
      modifies `stages
      ensures stages == old(stages)[i := old(stages)[i].(workers := old(stages)[i].workers[w := pc])]
    {
      stages := stages[i := stages[i].(workers := stages[i].workers[w := pc])];
    }
  }
}
