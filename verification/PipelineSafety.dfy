module PipelineSafety {
  import opened Pipeline

  // The stage functions called on a job that has passed through n of them.
  function Upto(n: nat): seq<nat> {
    if n == 0 then [] else if n == 1 then [0] else if n == 2 then [0, 1] else [0, 1, 2]
  }

  // How many stage functions have been called on a job at `p`.
  function StagesEntered(p: Place): nat {
    match p
    case Nowhere => 0
    case InChan(i) => i
    case With(i, _) => i + 1
    case Gone(Failed(i)) => i + 1
    case Gone(Finished) => STAGES
    case Gone(Dropped(i)) => i + 1
  }

  predicate Holds(w: Worker, j: JobId) {
    (w.Running? || w.Sending?) && w.job == j
  }

  predicate RejectedAfterMake(pc: CallPc) {
    pc == Returned(Stopped) || pc == Returned(CtxDone) || pc == Returned(Full)
  }

  predicate InsideOnce(pc: ShutPc) {
    pc.InOnce? || pc.Holding? || pc.StopSet? || pc.IngestClosed?
  }

  predicate UnderLock(pc: ShutPc) {
    pc.Holding? || pc.StopSet? || pc.IngestClosed?
  }

  // Where the one caller of Shutdown that runs the sync.Once stands.
  function OncePc(s: State): ShutPc {
    match s.once
    case NotRun => Ready
    case RunningBy(h) => if h < |s.shuts| then s.shuts[h] else Ready
    case OnceDone => PastOnce
  }

  // `stopped`, and whether ingest is closed, are functions of how far the sync.Once has run.
  ghost predicate ControlOk(s: State)
    requires |s.stages| == STAGES
  {
    && (s.lock.HeldByCall? ==> s.lock.call < |s.calls|)
    && (s.lock.HeldByShut? ==> s.lock.shut < |s.shuts|)
    && (s.once.RunningBy? ==> s.once.shut < |s.shuts|)
    && s.stopped == (OncePc(s).StopSet? || OncePc(s).IngestClosed? || OncePc(s).PastOnce?)
    && s.stages[0].closed == (OncePc(s).IngestClosed? || OncePc(s).PastOnce?)
    && s.stages[1].closed == s.stages[0].closerDone
    && s.stages[2].closed == s.stages[1].closerDone
    && (s.baseDone ==> s.once == OnceDone && s.started)
  }

  ghost predicate CallOk(s: State, k: nat)
    requires k < |s.calls|
  {
    var pc := s.calls[k];
    && ((pc.Locked? || pc.Admitted?) <==> s.lock == HeldByCall(k))
    && (pc.Admitted? ==> !s.stopped)
    && (!s.started ==> pc.Calling? || pc == Returned(CtxDead) || pc == Returned(NotStarted))
  }

  ghost predicate ShutOk(s: State, h: nat)
    requires h < |s.shuts|
  {
    var pc := s.shuts[h];
    && (UnderLock(pc) <==> s.lock == HeldByShut(h))
    && (InsideOnce(pc) <==> s.once == RunningBy(h))
    && (pc.PastOnce? || pc.HardWait? || pc.ReturnedUnstarted? || pc.ShutReturned? ==> s.once == OnceDone)
    && (pc.HardWait? ==> s.started)
    && (pc.ShutReturned? ==> Drained(s))
  }

  ghost predicate ChanOk(s: State, i: nat)
    requires i < |s.stages|
  {
    var st := s.stages[i];
    && st.cap >= 1 && |st.workers| >= 1 && |st.buf| <= st.cap
    && (forall p :: 0 <= p < |st.buf| ==> st.buf[p] < |s.jobs| && s.jobs[st.buf[p]].place == InChan(i))
    && (forall p, q :: 0 <= p < q < |st.buf| ==> st.buf[p] != st.buf[q])
    && (st.closerDone ==> s.started && AllExited(st.workers))
  }

  ghost predicate WorkerOk(s: State, i: nat, w: nat)
    requires HasWorker(s, i, w)
  {
    match s.stages[i].workers[w]
    case Idle => true
    case Running(j) => j < |s.jobs| && s.jobs[j].place == With(i, w)
    case Sending(j) => j < |s.jobs| && s.jobs[j].place == With(i, w) && i + 1 < STAGES
    case Exited => s.started && (s.baseDone || (s.stages[i].closed && s.stages[i].buf == []))
  }

  // A job is where its history says it is,
  ghost predicate PlaceOk(s: State, j: nat)
    requires j < |s.jobs| == |s.calls|
  {
    match s.jobs[j].place
    case Nowhere => s.calls[j] != Returned(Accepted)
    case InChan(i) => s.calls[j] == Returned(Accepted) && i < |s.stages| && j in s.stages[i].buf
    case With(i, w) => s.calls[j] == Returned(Accepted) && HasWorker(s, i, w) && Holds(s.stages[i].workers[w], j)
    case Gone(_) => s.calls[j] == Returned(Accepted)
  }

  // and its trace, its cancel and its rank agree with that place.
  ghost predicate LogOk(s: State, j: nat)
    requires j < |s.jobs| == |s.calls|
  {
    var job := s.jobs[j];
    && (job.cancelled <==> job.place.Gone? || RejectedAfterMake(s.calls[j]))
    && (s.calls[j] == Returned(Accepted) ==> job.rank < |s.accepted| && s.accepted[job.rank] == j)
    && (job.place.Gone? && job.place.fate.Dropped? ==> s.baseDone)
    && job.trace == Upto(StagesEntered(job.place))
    && (job.place.Gone? && job.place.fate.Failed? ==> job.place.fate.stage < STAGES)
    && (job.place.Gone? && job.place.fate.Dropped? ==> job.place.fate.stage + 1 < STAGES)
  }

  ghost predicate RankOk(s: State, p: nat)
    requires p < |s.accepted| && |s.jobs| == |s.calls|
  {
    var j := s.accepted[p];
    j < |s.jobs| && s.jobs[j].rank == p && s.calls[j] == Returned(Accepted)
  }

  ghost predicate Inv(s: State) {
    && !s.panicked
    && |s.stages| == STAGES
    && |s.calls| == |s.jobs|
    && ControlOk(s)
    && (forall k :: 0 <= k < |s.calls| ==> CallOk(s, k))
    && (forall h :: 0 <= h < |s.shuts| ==> ShutOk(s, h))
    && (forall i :: 0 <= i < |s.stages| ==> ChanOk(s, i))
    && (forall i: nat, w: nat :: HasWorker(s, i, w) ==> WorkerOk(s, i, w))
    && (forall j :: 0 <= j < |s.jobs| ==> PlaceOk(s, j))
    && (forall j :: 0 <= j < |s.jobs| ==> LogOk(s, j))
    && (forall p :: 0 <= p < |s.accepted| ==> RankOk(s, p))
  }

  lemma InitInv(o: Options, calls: nat, shuts: nat)
    requires |o.workers| == |o.buffers| == STAGES
    ensures Inv(Init(o, calls, shuts))
  {
  }

  // A stage as its two options ask for, each taken as one where it is less: idle workers, an empty open channel.
  predicate AsConfigured(st: Stage, workers: int, buffer: int) {
    && |st.workers| == (if workers < 1 then 1 else workers)
    && st.cap == (if buffer < 1 then 1 else buffer)
  }

  predicate Untouched(st: Stage) {
    st.buf == [] && !st.closed && !st.closerDone && forall w :: 0 <= w < |st.workers| ==> st.workers[w] == Idle
  }

  /** The options are what the pipeline is built with, and nothing has happened yet. */
  lemma InitIs(o: Options, calls: nat, shuts: nat)
    requires |o.workers| == |o.buffers| == STAGES
    ensures var s := Init(o, calls, shuts);
      && |s.stages| == STAGES && !s.started && !s.stopped && !s.baseDone && s.lock == Free && s.once == NotRun
      && (forall i :: 0 <= i < STAGES ==>
          AsConfigured(s.stages[i], o.workers[i], o.buffers[i]) && Untouched(s.stages[i]))
      && |s.calls| == |s.jobs| == calls && |s.shuts| == shuts && s.accepted == s.finished == []
      && (forall k :: 0 <= k < calls ==> s.calls[k] == Calling && s.jobs[k] == Job(Nowhere, [], false, 0))
      && (forall h :: 0 <= h < shuts ==> s.shuts[h] == Ready)
  {
  }

  // Preservation.  Each kind of step first gets a frame: what it leaves alone.

  ghost predicate SameControl(s: State, s': State) {
    && |s.stages| == |s'.stages| == STAGES
    && s' == s.(stages := s'.stages, jobs := s'.jobs, finished := s'.finished)
    && |s.jobs| == |s'.jobs|
    && (forall i :: 0 <= i < STAGES ==>
          s'.stages[i].closed == s.stages[i].closed && s'.stages[i].closerDone == s.stages[i].closerDone &&
          s'.stages[i].cap == s.stages[i].cap && |s'.stages[i].workers| == |s.stages[i].workers|)
    && (forall j :: 0 <= j < |s.jobs| ==> s'.jobs[j].rank == s.jobs[j].rank)
  }

  lemma ControlFrame(s: State, s': State)
    requires Inv(s) && SameControl(s, s')
    ensures !s'.panicked && |s'.calls| == |s'.jobs| && ControlOk(s')
    ensures forall k :: 0 <= k < |s'.calls| ==> CallOk(s', k)
    ensures forall h :: 0 <= h < |s'.shuts| ==> ShutOk(s', h)
    ensures forall p :: 0 <= p < |s'.accepted| ==> RankOk(s', p)
  {
    forall k | 0 <= k < |s'.calls| ensures CallOk(s', k) { assert CallOk(s, k); }
    forall h | 0 <= h < |s'.shuts| ensures ShutOk(s', h) { assert ShutOk(s, h); }
    forall p | 0 <= p < |s'.accepted| ensures RankOk(s', p) { assert RankOk(s, p); }
  }

  // A worker blocked on a send keeps the channel it sends to open.
  lemma NextOpen(s: State, i: nat, w: nat)
    requires Inv(s) && i + 1 < STAGES && HasWorker(s, i, w) && !s.stages[i].workers[w].Exited?
    ensures !s.stages[i + 1].closed
  {
    assert ChanOk(s, i);
  }

  lemma SendFrame(s: State, i: nat, w: nat)
    requires Inv(s) && WorkEnabled(s, i, w, Send)
    ensures SameControl(s, WorkApply(s, i, w, Send))
  {
    NextOpen(s, i, w);
  }

  lemma WorkFrame(s: State, i: nat, w: nat, x: WorkStep)
    requires Inv(s) && WorkEnabled(s, i, w, x)
    ensures SameControl(s, WorkApply(s, i, w, x))
  {
    if x.Send? { SendFrame(s, i, w); }
  }

  lemma ReceiveChan(s: State, i: nat, w: nat, i': nat)
    requires Inv(s) && WorkEnabled(s, i, w, Receive) && i' < STAGES
    ensures ChanOk(WorkApply(s, i, w, Receive), i')
  {
    assert ChanOk(s, i) && PlaceOk(s, s.stages[i].buf[0]) && LogOk(s, s.stages[i].buf[0]);
    assert ChanOk(s, i');
  }

  lemma ReceiveWorker(s: State, i: nat, w: nat, i': nat, w': nat)
    requires Inv(s) && WorkEnabled(s, i, w, Receive) && HasWorker(s, i', w')
    ensures var s' := WorkApply(s, i, w, Receive); HasWorker(s', i', w') && WorkerOk(s', i', w')
  {
    assert ChanOk(s, i) && PlaceOk(s, s.stages[i].buf[0]) && LogOk(s, s.stages[i].buf[0]);
    assert WorkerOk(s, i', w');
  }

  lemma ReceiveJob(s: State, i: nat, w: nat, j': nat)
    requires Inv(s) && WorkEnabled(s, i, w, Receive) && j' < |s.jobs|
    ensures var s' := WorkApply(s, i, w, Receive);
      |s'.jobs| == |s'.calls| == |s.jobs| && PlaceOk(s', j') && LogOk(s', j')
  {
    assert ChanOk(s, i) && PlaceOk(s, s.stages[i].buf[0]) && LogOk(s, s.stages[i].buf[0]);
    assert PlaceOk(s, j') && LogOk(s, j');
  }

  lemma ExitChan(s: State, i: nat, w: nat, x: WorkStep, i': nat)
    requires Inv(s) && WorkEnabled(s, i, w, x) && (x.ExitClosed? || x.ExitCancelled?) && i' < STAGES
    ensures ChanOk(WorkApply(s, i, w, x), i')
  {
    assert WorkerOk(s, i, w);
    assert ChanOk(s, i');
  }

  lemma ExitWorker(s: State, i: nat, w: nat, x: WorkStep, i': nat, w': nat)
    requires Inv(s) && WorkEnabled(s, i, w, x) && (x.ExitClosed? || x.ExitCancelled?) && HasWorker(s, i', w')
    ensures var s' := WorkApply(s, i, w, x); HasWorker(s', i', w') && WorkerOk(s', i', w')
  {
    assert WorkerOk(s, i, w);
    assert WorkerOk(s, i', w');
  }

  lemma ExitJob(s: State, i: nat, w: nat, x: WorkStep, j': nat)
    requires Inv(s) && WorkEnabled(s, i, w, x) && (x.ExitClosed? || x.ExitCancelled?) && j' < |s.jobs|
    ensures var s' := WorkApply(s, i, w, x);
      |s'.jobs| == |s'.calls| == |s.jobs| && PlaceOk(s', j') && LogOk(s', j')
  {
    assert WorkerOk(s, i, w);
    assert PlaceOk(s, j') && LogOk(s, j');
  }

  lemma RetireChan(s: State, i: nat, w: nat, x: WorkStep, i': nat)
    requires Inv(s) && WorkEnabled(s, i, w, x) && (x.Fail? || x.Drop? || (x.Succeed? && i + 1 == STAGES)) && i' < STAGES
    ensures ChanOk(WorkApply(s, i, w, x), i')
  {
    assert WorkerOk(s, i, w) && PlaceOk(s, s.stages[i].workers[w].job) && LogOk(s, s.stages[i].workers[w].job);
    assert ChanOk(s, i');
  }

  lemma RetireWorker(s: State, i: nat, w: nat, x: WorkStep, i': nat, w': nat)
    requires Inv(s) && WorkEnabled(s, i, w, x)
    requires (x.Fail? || x.Drop? || (x.Succeed? && i + 1 == STAGES)) && HasWorker(s, i', w')
    ensures var s' := WorkApply(s, i, w, x); HasWorker(s', i', w') && WorkerOk(s', i', w')
  {
    assert WorkerOk(s, i, w) && PlaceOk(s, s.stages[i].workers[w].job) && LogOk(s, s.stages[i].workers[w].job);
    assert WorkerOk(s, i', w');
  }

  lemma RetirePlace(s: State, i: nat, w: nat, x: WorkStep, j': nat)
    requires Inv(s) && WorkEnabled(s, i, w, x)
    requires (x.Fail? || x.Drop? || (x.Succeed? && i + 1 == STAGES)) && j' < |s.jobs|
    ensures var s' := WorkApply(s, i, w, x);
      |s'.jobs| == |s'.calls| == |s.jobs| && PlaceOk(s', j')
  {
    assert WorkerOk(s, i, w) && PlaceOk(s, s.stages[i].workers[w].job) && LogOk(s, s.stages[i].workers[w].job);
    assert PlaceOk(s, j');
  }

  lemma RetireLog(s: State, i: nat, w: nat, x: WorkStep, j': nat)
    requires Inv(s) && WorkEnabled(s, i, w, x)
    requires (x.Fail? || x.Drop? || (x.Succeed? && i + 1 == STAGES)) && j' < |s.jobs|
    ensures var s' := WorkApply(s, i, w, x);
      |s'.jobs| == |s'.calls| == |s.jobs| && LogOk(s', j')
  {
    assert WorkerOk(s, i, w) && PlaceOk(s, s.stages[i].workers[w].job) && LogOk(s, s.stages[i].workers[w].job);
    assert PlaceOk(s, j') && LogOk(s, j');
  }

  lemma RetireJob(s: State, i: nat, w: nat, x: WorkStep, j': nat)
    requires Inv(s) && WorkEnabled(s, i, w, x)
    requires (x.Fail? || x.Drop? || (x.Succeed? && i + 1 == STAGES)) && j' < |s.jobs|
    ensures var s' := WorkApply(s, i, w, x);
      |s'.jobs| == |s'.calls| == |s.jobs| && PlaceOk(s', j') && LogOk(s', j')
  {
    RetirePlace(s, i, w, x, j');
    RetireLog(s, i, w, x, j');
  }

  lemma ForwardChan(s: State, i: nat, w: nat, i': nat)
    requires Inv(s) && WorkEnabled(s, i, w, Succeed) && i + 1 < STAGES && i' < STAGES
    ensures ChanOk(WorkApply(s, i, w, Succeed), i')
  {
    assert WorkerOk(s, i, w);
    assert ChanOk(s, i');
  }

  lemma ForwardWorker(s: State, i: nat, w: nat, i': nat, w': nat)
    requires Inv(s) && WorkEnabled(s, i, w, Succeed) && i + 1 < STAGES && HasWorker(s, i', w')
    ensures var s' := WorkApply(s, i, w, Succeed); HasWorker(s', i', w') && WorkerOk(s', i', w')
  {
    assert WorkerOk(s, i, w);
    assert WorkerOk(s, i', w');
  }

  lemma ForwardJob(s: State, i: nat, w: nat, j': nat)
    requires Inv(s) && WorkEnabled(s, i, w, Succeed) && i + 1 < STAGES && j' < |s.jobs|
    ensures var s' := WorkApply(s, i, w, Succeed);
      |s'.jobs| == |s'.calls| == |s.jobs| && PlaceOk(s', j') && LogOk(s', j')
  {
    assert WorkerOk(s, i, w);
    assert PlaceOk(s, j') && LogOk(s, j');
  }

  lemma SendNextChan(s: State, i: nat, w: nat)
    requires Inv(s) && WorkEnabled(s, i, w, Send)
    ensures ChanOk(WorkApply(s, i, w, Send), i + 1)
  {
    NextOpen(s, i, w);
    assert WorkerOk(s, i, w) && ChanOk(s, i + 1);
  }

  lemma SendOtherChan(s: State, i: nat, w: nat, i': nat)
    requires Inv(s) && WorkEnabled(s, i, w, Send) && i' < STAGES && i' != i + 1
    ensures ChanOk(WorkApply(s, i, w, Send), i')
  {
    NextOpen(s, i, w);
    assert WorkerOk(s, i, w) && ChanOk(s, i');
  }

  lemma SendChan(s: State, i: nat, w: nat, i': nat)
    requires Inv(s) && WorkEnabled(s, i, w, Send) && i' < STAGES
    ensures ChanOk(WorkApply(s, i, w, Send), i')
  {
    if i' == i + 1 { SendNextChan(s, i, w); } else { SendOtherChan(s, i, w, i'); }
  }

  lemma SendWorker(s: State, i: nat, w: nat, i': nat, w': nat)
    requires Inv(s) && WorkEnabled(s, i, w, Send) && HasWorker(s, i', w')
    ensures var s' := WorkApply(s, i, w, Send); HasWorker(s', i', w') && WorkerOk(s', i', w')
  {
    NextOpen(s, i, w);
    assert WorkerOk(s, i, w) && ChanOk(s, i + 1) && PlaceOk(s, s.stages[i].workers[w].job);
    assert LogOk(s, s.stages[i].workers[w].job);
    assert WorkerOk(s, i', w');
  }

  lemma SendPlace(s: State, i: nat, w: nat, j': nat)
    requires Inv(s) && WorkEnabled(s, i, w, Send) && j' < |s.jobs|
    ensures var s' := WorkApply(s, i, w, Send);
      |s'.jobs| == |s'.calls| == |s.jobs| && PlaceOk(s', j')
  {
    NextOpen(s, i, w);
    assert WorkerOk(s, i, w) && ChanOk(s, i + 1) && PlaceOk(s, s.stages[i].workers[w].job);
    assert LogOk(s, s.stages[i].workers[w].job);
    assert PlaceOk(s, j');
  }

  lemma SendLog(s: State, i: nat, w: nat, j': nat)
    requires Inv(s) && WorkEnabled(s, i, w, Send) && j' < |s.jobs|
    ensures var s' := WorkApply(s, i, w, Send);
      |s'.jobs| == |s'.calls| == |s.jobs| && LogOk(s', j')
  {
    NextOpen(s, i, w);
    assert WorkerOk(s, i, w) && ChanOk(s, i + 1) && PlaceOk(s, s.stages[i].workers[w].job);
    assert LogOk(s, s.stages[i].workers[w].job);
    assert PlaceOk(s, j') && LogOk(s, j');
  }

  lemma SendJob(s: State, i: nat, w: nat, j': nat)
    requires Inv(s) && WorkEnabled(s, i, w, Send) && j' < |s.jobs|
    ensures var s' := WorkApply(s, i, w, Send);
      |s'.jobs| == |s'.calls| == |s.jobs| && PlaceOk(s', j') && LogOk(s', j')
  {
    SendPlace(s, i, w, j');
    SendLog(s, i, w, j');
  }

  lemma WorkStepInv(s: State, i: nat, w: nat, x: WorkStep)
    requires Inv(s) && WorkEnabled(s, i, w, x)
    ensures Inv(WorkApply(s, i, w, x))
  {
    var s' := WorkApply(s, i, w, x);
    WorkFrame(s, i, w, x);
    ControlFrame(s, s');
    forall i' | 0 <= i' < |s'.stages| ensures ChanOk(s', i') {
      match x
      case Receive => ReceiveChan(s, i, w, i');
      case ExitClosed => ExitChan(s, i, w, x, i');
      case ExitCancelled => ExitChan(s, i, w, x, i');
      case Send => SendChan(s, i, w, i');
      case Succeed => if i + 1 < STAGES { ForwardChan(s, i, w, i'); } else { RetireChan(s, i, w, x, i'); }
      case Fail => RetireChan(s, i, w, x, i');
      case Drop => RetireChan(s, i, w, x, i');
    }
    forall i': nat, w': nat | HasWorker(s', i', w') ensures WorkerOk(s', i', w') {
      match x
      case Receive => ReceiveWorker(s, i, w, i', w');
      case ExitClosed => ExitWorker(s, i, w, x, i', w');
      case ExitCancelled => ExitWorker(s, i, w, x, i', w');
      case Send => SendWorker(s, i, w, i', w');
      case Succeed => if i + 1 < STAGES { ForwardWorker(s, i, w, i', w'); } else { RetireWorker(s, i, w, x, i', w'); }
      case Fail => RetireWorker(s, i, w, x, i', w');
      case Drop => RetireWorker(s, i, w, x, i', w');
    }
    forall j' | 0 <= j' < |s'.jobs| ensures PlaceOk(s', j') && LogOk(s', j') {
      match x
      case Receive => ReceiveJob(s, i, w, j');
      case ExitClosed => ExitJob(s, i, w, x, j');
      case ExitCancelled => ExitJob(s, i, w, x, j');
      case Send => SendJob(s, i, w, j');
      case Succeed => if i + 1 < STAGES { ForwardJob(s, i, w, j'); } else { RetireJob(s, i, w, x, j'); }
      case Fail => RetireJob(s, i, w, x, j');
      case Drop => RetireJob(s, i, w, x, j');
    }
  }

  lemma CallControl(s: State, k: nat, c: CallStep)
    requires Inv(s) && CallEnabled(s, k, c)
    ensures var s' := CallApply(s, k, c);
      !s'.panicked && |s'.stages| == STAGES && |s'.calls| == |s'.jobs| && ControlOk(s')
  {
    assert CallOk(s, k);
  }

  lemma CallCalls(s: State, k: nat, c: CallStep, k': nat)
    requires Inv(s) && CallEnabled(s, k, c) && k' < |s.calls|
    ensures var s' := CallApply(s, k, c); k' < |s'.calls| == |s.calls| && CallOk(s', k')
  {
    assert CallOk(s, k);
    assert CallOk(s, k');
  }

  lemma CallShuts(s: State, k: nat, c: CallStep, h': nat)
    requires Inv(s) && CallEnabled(s, k, c) && h' < |s.shuts|
    ensures var s' := CallApply(s, k, c); h' < |s'.shuts| == |s.shuts| && ShutOk(s', h')
  {
    assert CallOk(s, k);
    assert ShutOk(s, h');
  }

  lemma CallChan(s: State, k: nat, c: CallStep, i': nat)
    requires Inv(s) && CallEnabled(s, k, c) && i' < STAGES
    ensures ChanOk(CallApply(s, k, c), i')
  {
    assert CallOk(s, k) && PlaceOk(s, k) && LogOk(s, k) && ChanOk(s, 0);
    assert ChanOk(s, i');
  }

  lemma CallWorker(s: State, k: nat, c: CallStep, i': nat, w': nat)
    requires Inv(s) && CallEnabled(s, k, c) && HasWorker(s, i', w')
    ensures var s' := CallApply(s, k, c); HasWorker(s', i', w') && WorkerOk(s', i', w')
  {
    assert CallOk(s, k) && PlaceOk(s, k) && LogOk(s, k) && ChanOk(s, 0);
    assert WorkerOk(s, i', w');
  }

  lemma CallPlace(s: State, k: nat, c: CallStep, j': nat)
    requires Inv(s) && CallEnabled(s, k, c) && j' < |s.jobs|
    ensures var s' := CallApply(s, k, c);
      |s'.jobs| == |s'.calls| == |s.jobs| && PlaceOk(s', j')
  {
    assert CallOk(s, k) && PlaceOk(s, k) && LogOk(s, k) && ChanOk(s, 0);
    assert PlaceOk(s, j');
  }

  lemma CallLog(s: State, k: nat, c: CallStep, j': nat)
    requires Inv(s) && CallEnabled(s, k, c) && j' < |s.jobs|
    ensures var s' := CallApply(s, k, c);
      |s'.jobs| == |s'.calls| == |s.jobs| && LogOk(s', j')
  {
    assert CallOk(s, k) && PlaceOk(s, k) && LogOk(s, k) && ChanOk(s, 0);
    assert PlaceOk(s, j') && LogOk(s, j');
  }

  lemma CallJob(s: State, k: nat, c: CallStep, j': nat)
    requires Inv(s) && CallEnabled(s, k, c) && j' < |s.jobs|
    ensures var s' := CallApply(s, k, c);
      |s'.jobs| == |s'.calls| == |s.jobs| && PlaceOk(s', j') && LogOk(s', j')
  {
    CallPlace(s, k, c, j');
    CallLog(s, k, c, j');
  }

  lemma CallStepInv(s: State, k: nat, c: CallStep)
    requires Inv(s) && CallEnabled(s, k, c)
    ensures Inv(CallApply(s, k, c))
  {
    var s' := CallApply(s, k, c);
    CallControl(s, k, c);
    forall k' | 0 <= k' < |s'.calls| ensures CallOk(s', k') { CallCalls(s, k, c, k'); }
    forall h' | 0 <= h' < |s'.shuts| ensures ShutOk(s', h') { CallShuts(s, k, c, h'); }
    forall i' | 0 <= i' < |s'.stages| ensures ChanOk(s', i') { CallChan(s, k, c, i'); }
    forall i': nat, w': nat | HasWorker(s', i', w') ensures WorkerOk(s', i', w') { CallWorker(s, k, c, i', w'); }
    forall j' | 0 <= j' < |s'.jobs| ensures PlaceOk(s', j') && LogOk(s', j') { CallJob(s, k, c, j'); }
    forall p | 0 <= p < |s'.accepted| ensures RankOk(s', p) { if p < |s.accepted| { assert RankOk(s, p); } }
  }

  lemma ShutControl(s: State, h: nat, x: ShutStep)
    requires Inv(s) && ShutEnabled(s, h, x)
    ensures var s' := ShutApply(s, h, x);
      !s'.panicked && |s'.stages| == STAGES && |s'.calls| == |s'.jobs| && ControlOk(s')
  {
    assert ShutOk(s, h);
  }

  lemma ShutCalls(s: State, h: nat, x: ShutStep, k': nat)
    requires Inv(s) && ShutEnabled(s, h, x) && k' < |s.calls|
    ensures var s' := ShutApply(s, h, x); k' < |s'.calls| == |s.calls| && CallOk(s', k')
  {
    assert ShutOk(s, h);
    assert CallOk(s, k');
  }

  lemma ShutShuts(s: State, h: nat, x: ShutStep, h': nat)
    requires Inv(s) && ShutEnabled(s, h, x) && h' < |s.shuts|
    ensures var s' := ShutApply(s, h, x); h' < |s'.shuts| == |s.shuts| && ShutOk(s', h')
  {
    assert ShutOk(s, h);
    assert ShutOk(s, h');
  }

  lemma ShutChan(s: State, h: nat, x: ShutStep, i': nat)
    requires Inv(s) && ShutEnabled(s, h, x) && i' < STAGES
    ensures ChanOk(ShutApply(s, h, x), i')
  {
    assert ShutOk(s, h) && ChanOk(s, 0);
    assert ChanOk(s, i');
  }

  lemma ShutWorker(s: State, h: nat, x: ShutStep, i': nat, w': nat)
    requires Inv(s) && ShutEnabled(s, h, x) && HasWorker(s, i', w')
    ensures var s' := ShutApply(s, h, x); HasWorker(s', i', w') && WorkerOk(s', i', w')
  {
    assert ShutOk(s, h) && ChanOk(s, 0);
    assert WorkerOk(s, i', w');
  }

  lemma ShutJob(s: State, h: nat, x: ShutStep, j': nat)
    requires Inv(s) && ShutEnabled(s, h, x) && j' < |s.jobs|
    ensures var s' := ShutApply(s, h, x);
      |s'.jobs| == |s'.calls| == |s.jobs| && PlaceOk(s', j') && LogOk(s', j')
  {
    assert ShutOk(s, h) && ChanOk(s, 0);
    assert PlaceOk(s, j') && LogOk(s, j');
  }

  lemma ShutStepInv(s: State, h: nat, x: ShutStep)
    requires Inv(s) && ShutEnabled(s, h, x)
    ensures Inv(ShutApply(s, h, x))
  {
    var s' := ShutApply(s, h, x);
    ShutControl(s, h, x);
    forall k' | 0 <= k' < |s'.calls| ensures CallOk(s', k') { ShutCalls(s, h, x, k'); }
    forall h' | 0 <= h' < |s'.shuts| ensures ShutOk(s', h') { ShutShuts(s, h, x, h'); }
    forall i' | 0 <= i' < |s'.stages| ensures ChanOk(s', i') { ShutChan(s, h, x, i'); }
    forall i': nat, w': nat | HasWorker(s', i', w') ensures WorkerOk(s', i', w') { ShutWorker(s, h, x, i', w'); }
    forall j' | 0 <= j' < |s'.jobs| ensures PlaceOk(s', j') && LogOk(s', j') { ShutJob(s, h, x, j'); }
    forall p | 0 <= p < |s'.accepted| ensures RankOk(s', p) { if p < |s.accepted| { assert RankOk(s, p); } }
  }

  lemma CloseOutControl(s: State, i: nat)
    requires Inv(s) && CloseOutEnabled(s, i)
    ensures var s' := CloseOutApply(s, i);
      !s'.panicked && |s'.stages| == STAGES && |s'.calls| == |s'.jobs| && ControlOk(s')
  {
    assert ChanOk(s, i);
  }

  lemma CloseOutCalls(s: State, i: nat, k': nat)
    requires Inv(s) && CloseOutEnabled(s, i) && k' < |s.calls|
    ensures var s' := CloseOutApply(s, i); k' < |s'.calls| == |s.calls| && CallOk(s', k')
  {
    assert ChanOk(s, i);
    assert CallOk(s, k');
  }

  lemma CloseOutShuts(s: State, i: nat, h': nat)
    requires Inv(s) && CloseOutEnabled(s, i) && h' < |s.shuts|
    ensures var s' := CloseOutApply(s, i); h' < |s'.shuts| == |s.shuts| && ShutOk(s', h')
  {
    assert ChanOk(s, i);
    assert ShutOk(s, h');
  }

  lemma CloseOutChan(s: State, i: nat, i': nat)
    requires Inv(s) && CloseOutEnabled(s, i) && i' < STAGES
    ensures ChanOk(CloseOutApply(s, i), i')
  {
    assert ChanOk(s, i);
    assert ChanOk(s, i');
  }

  lemma CloseOutWorker(s: State, i: nat, i': nat, w': nat)
    requires Inv(s) && CloseOutEnabled(s, i) && HasWorker(s, i', w')
    ensures var s' := CloseOutApply(s, i); HasWorker(s', i', w') && WorkerOk(s', i', w')
  {
    assert ChanOk(s, i);
    assert WorkerOk(s, i', w');
  }

  lemma CloseOutJob(s: State, i: nat, j': nat)
    requires Inv(s) && CloseOutEnabled(s, i) && j' < |s.jobs|
    ensures var s' := CloseOutApply(s, i);
      |s'.jobs| == |s'.calls| == |s.jobs| && PlaceOk(s', j') && LogOk(s', j')
  {
    assert ChanOk(s, i);
    assert PlaceOk(s, j') && LogOk(s, j');
  }

  lemma CloseOutStepInv(s: State, i: nat)
    requires Inv(s) && CloseOutEnabled(s, i)
    ensures Inv(CloseOutApply(s, i))
  {
    var s' := CloseOutApply(s, i);
    CloseOutControl(s, i);
    forall k' | 0 <= k' < |s'.calls| ensures CallOk(s', k') { CloseOutCalls(s, i, k'); }
    forall h' | 0 <= h' < |s'.shuts| ensures ShutOk(s', h') { CloseOutShuts(s, i, h'); }
    forall i' | 0 <= i' < |s'.stages| ensures ChanOk(s', i') { CloseOutChan(s, i, i'); }
    forall i': nat, w': nat | HasWorker(s', i', w') ensures WorkerOk(s', i', w') { CloseOutWorker(s, i, i', w'); }
    forall j' | 0 <= j' < |s'.jobs| ensures PlaceOk(s', j') && LogOk(s', j') { CloseOutJob(s, i, j'); }
    forall p | 0 <= p < |s'.accepted| ensures RankOk(s', p) { if p < |s.accepted| { assert RankOk(s, p); } }
  }

  /** Every step keeps the invariant: in particular no step panics. */
  lemma InvStep(s: State, a: Action)
    requires Inv(s) && Enabled(s, a)
    ensures Inv(Apply(s, a))
  {
    match a
    case Start =>
      var s' := Apply(s, a);
      forall k | 0 <= k < |s'.calls| ensures CallOk(s', k) { assert CallOk(s, k); }
      forall h | 0 <= h < |s'.shuts| ensures ShutOk(s', h) { assert ShutOk(s, h); }
      forall i | 0 <= i < |s'.stages| ensures ChanOk(s', i) { assert ChanOk(s, i); }
      forall i: nat, w: nat | HasWorker(s', i, w) ensures WorkerOk(s', i, w) { assert WorkerOk(s, i, w); }
      forall j | 0 <= j < |s'.jobs| ensures PlaceOk(s', j) && LogOk(s', j) { assert PlaceOk(s, j) && LogOk(s, j); }
      forall p | 0 <= p < |s'.accepted| ensures RankOk(s', p) { assert RankOk(s, p); }
    case Call(k, c) => CallStepInv(s, k, c);
    case Shut(h, x) => ShutStepInv(s, h, x);
    case Work(i, w, x) => WorkStepInv(s, i, w, x);
    case CloseOut(i) => CloseOutStepInv(s, i);
  }

  lemma {:induction false} ReachableInv(s0: State, run: seq<Action>, s: State)
    requires Inv(s0) && Reaches(s0, run, s)
    ensures Inv(s)
    decreases |run|
  {
    if run != [] {
      InvStep(s0, run[0]);
      ReachableInv(Apply(s0, run[0]), run[1..], s);
    }
  }
}
