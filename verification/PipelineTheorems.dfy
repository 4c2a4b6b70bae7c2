/** What holds in every reachable state of the pipeline, for any worker and buffer options, any number of
    Enqueue and Shutdown calls, and any interleaving. */
module PipelineTheorems {
  import opened Pipeline
  import opened PipelineSafety

  ghost predicate Reachable(s: State) {
    exists o: Options, calls: nat, shuts: nat, run ::
      |o.workers| == |o.buffers| == STAGES && Reaches(Init(o, calls, shuts), run, s)
  }

  lemma Safe(s: State)
    requires Reachable(s)
    ensures Inv(s)
  {
    var o: Options, calls: nat, shuts: nat, run :|
      |o.workers| == |o.buffers| == STAGES && Reaches(Init(o, calls, shuts), run, s);
    InitInv(o, calls, shuts);
    ReachableInv(Init(o, calls, shuts), run, s);
  }

  /** No step of any goroutine sends on, or closes, a closed channel. */
  lemma NeverPanics(s: State)
    requires Reachable(s)
    ensures !s.panicked
  {
    Safe(s);
  }

  // What was built stays as large as it is.
  predicate SameSizes(s: State, s': State) {
    |s'.stages| == |s.stages| && forall i :: 0 <= i < |s.stages| ==>
      s'.stages[i].cap == s.stages[i].cap && |s'.stages[i].workers| == |s.stages[i].workers|
  }

  lemma CallKeepsSizes(s: State, k: nat, c: CallStep)
    requires CallEnabled(s, k, c)
    ensures SameSizes(s, CallApply(s, k, c))
  {
  }

  lemma ShutKeepsSizes(s: State, h: nat, x: ShutStep)
    requires ShutEnabled(s, h, x)
    ensures SameSizes(s, ShutApply(s, h, x))
  {
  }

  lemma WorkKeepsSizes(s: State, i: nat, w: nat, x: WorkStep)
    requires WorkEnabled(s, i, w, x)
    ensures SameSizes(s, WorkApply(s, i, w, x))
  {
  }

  lemma CloseOutKeepsSizes(s: State, i: nat)
    requires CloseOutEnabled(s, i)
    ensures SameSizes(s, CloseOutApply(s, i))
  {
  }

  lemma StepKeepsSizes(s: State, a: Action)
    requires Enabled(s, a)
    ensures SameSizes(s, Apply(s, a))
  {
    match a
    case Start =>
    case Call(k, c) => CallKeepsSizes(s, k, c);
    case Shut(h, x) => ShutKeepsSizes(s, h, x);
    case Work(i, w, x) => WorkKeepsSizes(s, i, w, x);
    case CloseOut(i) => CloseOutKeepsSizes(s, i);
  }

  lemma {:induction false} RunKeepsSizes(s0: State, run: seq<Action>, s: State)
    requires Reaches(s0, run, s)
    ensures SameSizes(s0, s)
    decreases |run|
  {
    if run != [] {
      StepKeepsSizes(s0, run[0]);
      RunKeepsSizes(Apply(s0, run[0]), run[1..], s);
    }
  }

  /** In every reachable state each stage has as many workers, and each channel as much room, as its option says:
      one where that is less than one. */
  lemma SizesAreOptions(o: Options, calls: nat, shuts: nat, run: seq<Action>, s: State)
    requires |o.workers| == |o.buffers| == STAGES && Reaches(Init(o, calls, shuts), run, s)
    ensures |s.stages| == STAGES
    ensures forall i :: 0 <= i < STAGES ==>
      && |s.stages[i].workers| == (if o.workers[i] < 1 then 1 else o.workers[i])
      && s.stages[i].cap == (if o.buffers[i] < 1 then 1 else o.buffers[i])
  {
    InitIs(o, calls, shuts);
    RunKeepsSizes(Init(o, calls, shuts), run, s);
  }

  // What an outcome says of the state in which it is decided, and of the one it leaves.
  predicate Meant(s: State, k: nat, out: Outcome, s': State)
    requires |s.stages| == STAGES
  {
    var st := s.stages[0];
    && (out.NotStarted? ==> !s.started)
    && (out.Stopped? ==> s.stopped)
    && (out.Full? ==> s.started && !s.stopped && |st.buf| == st.cap)
    && (out.Accepted? ==> s.started && !s.stopped && |st.buf| < st.cap)
    && s'.stages == (if out.Accepted? then s.stages[0 := st.(buf := st.buf + [k])] else s.stages)
    && s'.accepted == if out.Accepted? then s.accepted + [k] else s.accepted
  }

  lemma CallMeans(s: State, k: nat, c: CallStep)
    requires Inv(s) && CallEnabled(s, k, c) && CallApply(s, k, c).calls[k].Returned?
    ensures Meant(s, k, CallApply(s, k, c).calls[k].outcome, CallApply(s, k, c))
  {
    assert CallOk(s, k) && ChanOk(s, 0);
  }

  lemma ShutKeepsCalls(s: State, h: nat, x: ShutStep)
    requires ShutEnabled(s, h, x)
    ensures ShutApply(s, h, x).calls == s.calls
  {
  }

  lemma WorkKeepsCalls(s: State, i: nat, w: nat, x: WorkStep)
    requires WorkEnabled(s, i, w, x)
    ensures WorkApply(s, i, w, x).calls == s.calls
  {
  }

  lemma CallKeepsOthers(s: State, k: nat, c: CallStep, n: nat)
    requires CallEnabled(s, k, c) && n < |s.calls|
    ensures n < |CallApply(s, k, c).calls| && (n != k ==> CallApply(s, k, c).calls[n] == s.calls[n])
  {
    if c.Deliver? { DeliverKeepsOthers(s, k); }
  }

  lemma DeliverKeepsOthers(s: State, k: nat)
    requires CallEnabled(s, k, Deliver)
    ensures var cs := CallApply(s, k, Deliver).calls; cs == s.calls || cs == s.calls[k := Returned(Accepted)]
  {
  }

  lemma OnlyItsOwnCall(s: State, a: Action, k: nat)
    requires Enabled(s, a) && k < |s.calls| && !s.calls[k].Returned?
    ensures k < |Apply(s, a).calls| && (Apply(s, a).calls[k].Returned? ==> a.Call? && a.k == k)
  {
    match a
    case Start =>
    case Call(n, c) => CallKeepsOthers(s, n, c, k);
    case Shut(h, x) => ShutKeepsCalls(s, h, x);
    case Work(i, w, x) => WorkKeepsCalls(s, i, w, x);
    case CloseOut(i) =>
  }

  /** What Enqueue returns is what the pipeline is at that moment: not started, or stopped; full is said of a pipeline
      that is started and not stopped and has no room in ingest; accepted, of one that has room, and puts the job at
      its end.  Nothing but an acceptance touches a channel. */
  lemma OutcomeMeans(s: State, a: Action, k: nat)
    requires Reachable(s) && Enabled(s, a) && k < |s.calls| && !s.calls[k].Returned?
    ensures k < |Apply(s, a).calls| && |s.stages| == STAGES
    ensures Apply(s, a).calls[k].Returned? ==> Meant(s, k, Apply(s, a).calls[k].outcome, Apply(s, a))
  {
    Safe(s);
    OnlyItsOwnCall(s, a, k);
    if Apply(s, a).calls[k].Returned? { CallMeans(s, k, a.call); }
  }

  // `j` is found at `p`: read off the buffers and the workers, not off the job's own history.
  predicate FoundAt(s: State, p: Place, j: JobId) {
    match p
    case Nowhere => false
    case InChan(i) => i < |s.stages| && j in s.stages[i].buf
    case With(i, w) => HasWorker(s, i, w) && Holds(s.stages[i].workers[w], j)
    case Gone(_) => j < |s.jobs| && s.jobs[j].place == p
  }

  ghost predicate WasAccepted(s: State, j: JobId) {
    j < |s.calls| && s.calls[j] == Returned(Accepted)
  }

  lemma PlaceIsHistory(s: State, p: Place, j: JobId)
    requires Inv(s) && FoundAt(s, p, j)
    ensures j < |s.jobs| && s.jobs[j].place == p && WasAccepted(s, j)
  {
    match p
    case InChan(i) => assert ChanOk(s, i); assert PlaceOk(s, j);
    case With(i, w) => assert WorkerOk(s, i, w); assert PlaceOk(s, j);
    case Gone(_) => assert PlaceOk(s, j);
  }

  /** An accepted job is in exactly one place, and at most once in a buffer; no other job is anywhere. */
  lemma ExactlyOnePlace(s: State, j: JobId)
    requires Reachable(s)
    ensures WasAccepted(s, j) <==> exists p :: FoundAt(s, p, j)
    ensures forall p, q :: FoundAt(s, p, j) && FoundAt(s, q, j) ==> p == q
    ensures forall i, a, b :: 0 <= i < |s.stages| && 0 <= a < b < |s.stages[i].buf| ==>
        s.stages[i].buf[a] != s.stages[i].buf[b]
  {
    Safe(s);
    forall p | FoundAt(s, p, j)
      ensures j < |s.jobs| && s.jobs[j].place == p && WasAccepted(s, j)
    {
      PlaceIsHistory(s, p, j);
    }
    if WasAccepted(s, j) {
      assert PlaceOk(s, j);
      assert FoundAt(s, s.jobs[j].place, j);
    }
    forall i | 0 <= i < |s.stages|
      ensures forall a, b :: 0 <= a < b < |s.stages[i].buf| ==> s.stages[i].buf[a] != s.stages[i].buf[b]
    {
      assert ChanOk(s, i);
    }
  }

  /** The stage functions called on a job are a prefix of prep, ocr, jev, each called once;
      all three have been called when the job has finished. */
  lemma TraceIsPrefix(s: State, j: JobId)
    requires Reachable(s) && j < |s.jobs|
    ensures s.jobs[j].trace <= [0, 1, 2]
    ensures s.jobs[j].trace != [] ==> WasAccepted(s, j)
    ensures s.jobs[j].place == Gone(Finished) ==> s.jobs[j].trace == [0, 1, 2]
    ensures forall i: nat, w: nat :: FoundAt(s, With(i, w), j) ==> i < STAGES && s.jobs[j].trace == [0, 1, 2][..i + 1]
  {
    Safe(s);
    assert PlaceOk(s, j) && LogOk(s, j);
    if s.jobs[j].place.InChan? { assert ChanOk(s, s.jobs[j].place.stage); }
    forall i: nat, w: nat | FoundAt(s, With(i, w), j) ensures i < STAGES && s.jobs[j].trace == [0, 1, 2][..i + 1] {
      assert WorkerOk(s, i, w);
    }
  }

  lemma DrainedMeansEmpty(s: State)
    requires Inv(s) && Drained(s) && s.once == OnceDone && !s.baseDone
    ensures forall i :: 0 <= i < STAGES ==> s.stages[i].closed && s.stages[i].buf == []
  {
    forall i | 0 <= i < STAGES ensures s.stages[i].closed && s.stages[i].buf == [] {
      assert ChanOk(s, i) && s.stages[i].closerDone;
      assert s.stages[i].workers[0].Exited?;
      assert WorkerOk(s, i, 0);
    }
  }

  lemma DrainedJob(s: State, h: nat, j: JobId)
    requires Inv(s) && h < |s.shuts| && s.shuts[h] == ShutReturned && !s.baseDone && WasAccepted(s, j)
    ensures j < |s.jobs| && s.jobs[j].place.Gone? && !s.jobs[j].place.fate.Dropped?
  {
    assert ShutOk(s, h);
    DrainedMeansEmpty(s);
    forall i | 0 <= i < |s.stages| ensures AllExited(s.stages[i].workers) { assert ChanOk(s, i); }
    assert PlaceOk(s, j) && LogOk(s, j);
  }

  /** Graceful drain: when Shutdown of a started pipeline returns without the hard cancel, the channels are
      closed and empty and every accepted job has failed in a stage or been through all three. */
  lemma GracefulDrain(s: State, h: nat, j: JobId)
    requires Reachable(s) && h < |s.shuts| && s.shuts[h] == ShutReturned && !s.baseDone
    ensures forall i :: 0 <= i < STAGES ==> i < |s.stages| && s.stages[i].closed && s.stages[i].buf == []
    ensures WasAccepted(s, j) ==>
      j < |s.jobs| &&
      match s.jobs[j].place
      case Gone(Failed(i)) => i < STAGES && s.jobs[j].trace == [0, 1, 2][..i + 1]
      case Gone(Finished) => s.jobs[j].trace == [0, 1, 2]
      case _ => false
  {
    Safe(s);
    assert ShutOk(s, h);
    DrainedMeansEmpty(s);
    if WasAccepted(s, j) {
      DrainedJob(s, h, j);
      assert LogOk(s, j);
    }
  }

  // A job's context is done by its own cancel or by that of the job base.
  predicate CtxIsDone(s: State, j: JobId)
    requires j < |s.jobs|
  {
    s.jobs[j].cancelled || s.baseDone
  }

  /** A job's own cancel is called exactly when Enqueue rejects it after building it or when it retires:
      never while it is in a channel or with a worker. */
  lemma CancelIffOver(s: State, j: JobId)
    requires Reachable(s) && j < |s.jobs|
    ensures j < |s.calls|
    ensures s.jobs[j].cancelled <==> RejectedAfterMake(s.calls[j]) || exists f :: FoundAt(s, Gone(f), j)
    ensures s.jobs[j].cancelled ==> forall p :: FoundAt(s, p, j) ==> p.Gone?
  {
    Safe(s);
    assert PlaceOk(s, j) && LogOk(s, j);
    if s.jobs[j].place.Gone? { assert FoundAt(s, Gone(s.jobs[j].place.fate), j); }
    forall p | FoundAt(s, p, j) ensures p == s.jobs[j].place { PlaceIsHistory(s, p, j); }
  }

  /** When Shutdown of a started pipeline returns no worker is left and every accepted job's context is done. */
  lemma ShutdownReleasesContexts(s: State, h: nat, j: JobId)
    requires Reachable(s) && h < |s.shuts| && s.shuts[h] == ShutReturned
    ensures forall i, w :: 0 <= i < |s.stages| && 0 <= w < |s.stages[i].workers| ==> s.stages[i].workers[w].Exited?
    ensures WasAccepted(s, j) ==> j < |s.jobs| && CtxIsDone(s, j)
  {
    Safe(s);
    assert ShutOk(s, h);
    forall i | 0 <= i < |s.stages| ensures AllExited(s.stages[i].workers) { assert ChanOk(s, i); }
    if WasAccepted(s, j) && !s.baseDone {
      GracefulDrain(s, h, j);
      assert LogOk(s, j);
    }
  }
}
