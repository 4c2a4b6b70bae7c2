/** The three-stage worker pipeline as a transition system.

    Every goroutine of the program is a program counter: the workers and the closer of each stage, the
    callers of `Enqueue`, and the callers of `Shutdown`.  An `Action` is one atomic step of one of them.
    `Enabled` says when the Go scheduler may take the step and `Apply` what it does.  A `select` is a
    choice between actions; a step that would panic sets `panicked`. */
module Pipeline {

  type JobId = nat  // the n-th call of Enqueue builds job n

  // `Idle` is the select at the top of runStage; `Sending` the select around `out <- j`.
  datatype Worker = Idle | Running(job: JobId) | Sending(job: JobId) | Exited

  // A stage with the bounded channel it reads from. `closerDone` is the closer goroutine's exit.
  datatype Stage = Stage(buf: seq<JobId>, closed: bool, cap: nat, workers: seq<Worker>, closerDone: bool)

  datatype Outcome = CtxDead | NotStarted | Stopped | CtxDone | Full | Accepted

  // Enqueue: `Made` has derived the job context, `Locked` holds mu, `Admitted` saw stopped == false.
  datatype CallPc = Calling | Made | Locked | Admitted | Returned(outcome: Outcome)

  // Shutdown: `InOnce` .. `IngestClosed` are inside shutdownOnce.Do, the last three of them under mu.
  datatype ShutPc =
    | Ready | InOnce | Holding | StopSet | IngestClosed | PastOnce | HardWait | ReturnedUnstarted | ShutReturned

  datatype Once = NotRun | RunningBy(shut: nat) | OnceDone

  datatype Lock = Free | HeldByCall(call: nat) | HeldByShut(shut: nat)

  datatype Fate = Failed(stage: nat) | Finished | Dropped(stage: nat)

  datatype Place = Nowhere | InChan(stage: nat) | With(stage: nat, worker: nat) | Gone(fate: Fate)

  // History of one job: where it is, the stage functions called on it so far, whether its own cancel
  // was called, and its position in the acceptance order.
  datatype Job = Job(place: Place, trace: seq<nat>, cancelled: bool, rank: nat)

  datatype State = State(
    started: bool,
    stopped: bool,
    baseDone: bool,
    panicked: bool,
    lock: Lock,
    once: Once,
    stages: seq<Stage>,
    calls: seq<CallPc>,
    shuts: seq<ShutPc>,
    jobs: seq<Job>,
    accepted: seq<JobId>,
    finished: seq<JobId>)

  // One atomic step of an Enqueue call,
  datatype CallStep =
    | SeeDeadCtx | SeeNotStarted | MakeJob | LockMu | SeeStopped | SeeRunning | SeeCtxDone | Deliver | SeeFull

  // of a Shutdown call,
  datatype ShutStep =
    | EnterOnce | SkipOnce | LockMuInOnce | SetStopped | CloseIngest | LeaveOnce
    | SeeUnstarted | SeeDrained | TimeOut | SeeDrainedHard

  // and of a worker in runStage.
  datatype WorkStep = Receive | ExitClosed | ExitCancelled | Fail | Succeed | Send | Drop

  datatype Action =
    | Start
    | Call(k: nat, call: CallStep)
    | Shut(h: nat, shut: ShutStep)
    | Work(i: nat, w: nat, work: WorkStep)
    | CloseOut(i: nat)

  const STAGES := 3

  /** The integers of PipelineOptions, as a caller may set them. */
  datatype Options = Options(workers: seq<int>, buffers: seq<int>)

  function AtLeastOne(n: int): nat {
    if n < 1 then 1 else n
  }

  function NewStage(workers: int, buffer: int): Stage {
    Stage([], false, AtLeastOne(buffer), seq(AtLeastOne(workers), _ => Idle), false)
  }

  /** NewPipeline, with `calls` Enqueue calls and `shuts` Shutdown calls still to come. */
  function Init(o: Options, calls: nat, shuts: nat): State
    requires |o.workers| == |o.buffers| == STAGES
  {
    State(false, false, false, false, Free, NotRun,
      seq(STAGES, i requires 0 <= i < STAGES => NewStage(o.workers[i], o.buffers[i])),
      seq(calls, _ => Calling), seq(shuts, _ => Ready),
      seq(calls, _ => Job(Nowhere, [], false, 0)), [], [])
  }

  predicate HasWorker(s: State, i: nat, w: nat) {
    i < |s.stages| && w < |s.stages[i].workers|
  }

  predicate AllExited(ws: seq<Worker>) {
    forall w :: 0 <= w < |ws| ==> ws[w].Exited?
  }

  /** What p.wg.Wait waits for. */
  predicate Drained(s: State) {
    forall i :: 0 <= i < |s.stages| ==> s.stages[i].closerDone
  }

  // A send is ready on a closed channel too: it is then chosen and panics.
  predicate SendReady(st: Stage) {
    st.closed || |st.buf| < st.cap
  }

  predicate CallEnabled(s: State, k: nat, c: CallStep) {
    k < |s.calls| && k < |s.jobs| && |s.stages| == STAGES &&
    var pc := s.calls[k];
    match c
    case SeeDeadCtx => pc == Calling
    case SeeNotStarted => pc == Calling && !s.started
    case MakeJob => pc == Calling && s.started
    case LockMu => pc == Made && s.lock == Free
    case SeeStopped => pc == Locked && s.stopped
    case SeeRunning => pc == Locked && !s.stopped
    case SeeCtxDone => pc == Admitted
    case Deliver => pc == Admitted && SendReady(s.stages[0])
    case SeeFull => pc == Admitted && !SendReady(s.stages[0])  // default: no other case is ready
  }

  predicate ShutEnabled(s: State, h: nat, x: ShutStep) {
    h < |s.shuts| && |s.stages| == STAGES &&
    var pc := s.shuts[h];
    match x
    case EnterOnce => pc == Ready && s.once == NotRun
    case SkipOnce => pc == Ready && s.once == OnceDone
    case LockMuInOnce => pc == InOnce && s.lock == Free
    case SetStopped => pc == Holding
    case CloseIngest => pc == StopSet
    case LeaveOnce => pc == IngestClosed
    case SeeUnstarted => pc == PastOnce && !s.started
    case SeeDrained => pc == PastOnce && s.started && Drained(s)
    case TimeOut => pc == PastOnce && s.started
    case SeeDrainedHard => pc == HardWait && Drained(s)
  }

  predicate WorkEnabled(s: State, i: nat, w: nat, x: WorkStep) {
    s.started && |s.stages| == STAGES && HasWorker(s, i, w) &&
    var st, pc := s.stages[i], s.stages[i].workers[w];
    match x
    case Receive => pc == Idle && |st.buf| > 0 && st.buf[0] < |s.jobs|
    case ExitClosed => pc == Idle && st.buf == [] && st.closed
    case ExitCancelled => pc == Idle && s.baseDone
    case Fail => pc.Running? && pc.job < |s.jobs|
    case Succeed => pc.Running? && pc.job < |s.jobs|
    case Send => pc.Sending? && pc.job < |s.jobs| && i + 1 < STAGES && SendReady(s.stages[i + 1])
    case Drop => pc.Sending? && pc.job < |s.jobs| && s.baseDone
  }

  predicate CloseOutEnabled(s: State, i: nat) {
    s.started && |s.stages| == STAGES && i < STAGES && AllExited(s.stages[i].workers) && !s.stages[i].closerDone
  }

  predicate Enabled(s: State, a: Action) {
    match a
    case Start => !s.started
    case Call(k, c) => CallEnabled(s, k, c)
    case Shut(h, x) => ShutEnabled(s, h, x)
    case Work(i, w, x) => WorkEnabled(s, i, w, x)
    case CloseOut(i) => CloseOutEnabled(s, i)
  }

  // Updates of one component.

  function SetCall(s: State, k: nat, pc: CallPc): State
    requires k < |s.calls|
  {
    s.(calls := s.calls[k := pc])
  }

  function SetShut(s: State, h: nat, pc: ShutPc): State
    requires h < |s.shuts|
  {
    s.(shuts := s.shuts[h := pc])
  }

  function SetStage(s: State, i: nat, st: Stage): State
    requires i < |s.stages|
  {
    s.(stages := s.stages[i := st])
  }

  function SetWorker(s: State, i: nat, w: nat, pc: Worker): State
    requires HasWorker(s, i, w)
  {
    SetStage(s, i, s.stages[i].(workers := s.stages[i].workers[w := pc]))
  }

  function SetJob(s: State, j: JobId, job: Job): State
    requires j < |s.jobs|
  {
    s.(jobs := s.jobs[j := job])
  }

  function Push(s: State, i: nat, j: JobId): State
    requires i < |s.stages|
  {
    SetStage(s, i, s.stages[i].(buf := s.stages[i].buf + [j]))
  }

  function Close(s: State, i: nat): State
    requires i < |s.stages|
  {
    if s.stages[i].closed then s.(panicked := true)
    else SetStage(s, i, s.stages[i].(closed := true))
  }

  // j.cancel(), then Enqueue returns and releases mu.
  function Reject(s: State, k: nat, why: Outcome): State
    requires k < |s.calls| && k < |s.jobs|
  {
    SetJob(SetCall(s, k, Returned(why)), k, s.jobs[k].(cancelled := true)).(lock := Free)
  }

  // j.cancel() in runStage; the worker goes on at `pc`.
  function Retire(s: State, i: nat, w: nat, j: JobId, fate: Fate, pc: Worker): State
    requires HasWorker(s, i, w) && j < |s.jobs|
  {
    SetWorker(SetJob(s, j, s.jobs[j].(place := Gone(fate), cancelled := true)), i, w, pc)
  }

  function CallApply(s: State, k: nat, c: CallStep): State
    requires CallEnabled(s, k, c)
  {
    match c
    case SeeDeadCtx => SetCall(s, k, Returned(CtxDead))
    case SeeNotStarted => SetCall(s, k, Returned(NotStarted))
    case MakeJob => SetCall(s, k, Made)
    case LockMu => SetCall(s, k, Locked).(lock := HeldByCall(k))
    case SeeStopped => Reject(s, k, Stopped)
    case SeeRunning => SetCall(s, k, Admitted)
    case SeeCtxDone => Reject(s, k, CtxDone)
    case SeeFull => Reject(s, k, Full)
    case Deliver =>
      if s.stages[0].closed then s.(panicked := true)
      else
        SetJob(SetCall(Push(s, 0, k), k, Returned(Accepted)), k, s.jobs[k].(place := InChan(0), rank := |s.accepted|))
          .(lock := Free, accepted := s.accepted + [k])
  }

  function ShutApply(s: State, h: nat, x: ShutStep): State
    requires ShutEnabled(s, h, x)
  {
    match x
    case EnterOnce => SetShut(s, h, InOnce).(once := RunningBy(h))
    case SkipOnce => SetShut(s, h, PastOnce)
    case LockMuInOnce => SetShut(s, h, Holding).(lock := HeldByShut(h))
    case SetStopped => SetShut(s, h, StopSet).(stopped := true)
    case CloseIngest => SetShut(Close(s, 0), h, IngestClosed)
    case LeaveOnce => SetShut(s, h, PastOnce).(lock := Free, once := OnceDone)
    case SeeUnstarted => SetShut(s, h, ReturnedUnstarted)
    case SeeDrained => SetShut(s, h, ShutReturned)
    case TimeOut => SetShut(s, h, HardWait).(baseDone := true)
    case SeeDrainedHard => SetShut(s, h, ShutReturned)
  }

  function WorkApply(s: State, i: nat, w: nat, x: WorkStep): State
    requires WorkEnabled(s, i, w, x)
  {
    var st, pc := s.stages[i], s.stages[i].workers[w];
    match x
    case Receive =>
      var j := st.buf[0];
      SetJob(SetStage(s, i, st.(buf := st.buf[1..], workers := st.workers[w := Running(j)])),
             j, s.jobs[j].(place := With(i, w), trace := s.jobs[j].trace + [i]))
    case ExitClosed => SetWorker(s, i, w, Exited)
    case ExitCancelled => SetWorker(s, i, w, Exited)
    case Fail => Retire(s, i, w, pc.job, Failed(i), Idle)
    case Succeed =>
      if i + 1 < STAGES then SetWorker(s, i, w, Sending(pc.job))
      else Retire(s, i, w, pc.job, Finished, Idle).(finished := s.finished + [pc.job])
    case Send =>
      if s.stages[i + 1].closed then s.(panicked := true)
      else SetWorker(Push(SetJob(s, pc.job, s.jobs[pc.job].(place := InChan(i + 1))), i + 1, pc.job), i, w, Idle)
    case Drop => Retire(s, i, w, pc.job, Dropped(i), Exited)
  }

  function CloseOutApply(s: State, i: nat): State
    requires CloseOutEnabled(s, i)
  {
    var s' := SetStage(s, i, s.stages[i].(closerDone := true));
    if i + 1 < STAGES then Close(s', i + 1) else s'
  }

  function Apply(s: State, a: Action): State
    requires Enabled(s, a)
  {
    match a
    case Start => s.(started := true)
    case Call(k, c) => CallApply(s, k, c)
    case Shut(h, x) => ShutApply(s, h, x)
    case Work(i, w, x) => WorkApply(s, i, w, x)
    case CloseOut(i) => CloseOutApply(s, i)
  }

  /** `s` is what the pipeline becomes when `run` happens from `s0`, one step after the other. */
  ghost predicate Reaches(s0: State, run: seq<Action>, s: State)
    decreases |run|
  {
    if run == [] then s == s0
    else Enabled(s0, run[0]) && Reaches(Apply(s0, run[0]), run[1..], s)
  }
}
