/** With one worker per stage the pipeline is a queue: jobs finish in the order in which they were accepted. */
module PipelineOrder {
  import opened Pipeline
  import opened PipelineSafety

  function InHand(pc: Worker): seq<JobId> {
    if pc.Running? || pc.Sending? then [pc.job] else []
  }

  // A stage with one worker, as a piece of the line: what it holds comes before what waits for it.
  function Segment(st: Stage): seq<JobId>
    requires |st.workers| == 1
  {
    InHand(st.workers[0]) + st.buf
  }

  predicate OneWorkerEach(s: State) {
    |s.stages| == STAGES && forall i :: 0 <= i < STAGES ==> |s.stages[i].workers| == 1
  }

  // Everybody in line, the jobs that are through first.
  function Line(s: State): seq<JobId>
    requires OneWorkerEach(s)
  {
    s.finished + Segment(s.stages[2]) + Segment(s.stages[1]) + Segment(s.stages[0])
  }

  ghost predicate InOrder(s: State, line: seq<JobId>) {
    && |s.calls| == |s.jobs|
    && (forall p :: 0 <= p < |line| ==>
          line[p] < |s.jobs| && s.calls[line[p]] == Returned(Accepted) && s.jobs[line[p]].rank < |s.accepted|)
    && (forall p, q :: 0 <= p < q < |line| ==> s.jobs[line[p]].rank < s.jobs[line[q]].rank)
  }

  ghost predicate OrderInv(s: State) {
    OneWorkerEach(s) && InOrder(s, Line(s))
  }

  // Order only depends on the ranks and on which calls were accepted.
  lemma InOrderFrame(s: State, s': State, line: seq<JobId>)
    requires InOrder(s, line)
    requires |s'.calls| == |s'.jobs| == |s.jobs| && |s'.accepted| >= |s.accepted|
    requires forall j :: 0 <= j < |s.jobs| && s.calls[j] == Returned(Accepted) ==>
               s'.calls[j] == Returned(Accepted) && s'.jobs[j].rank == s.jobs[j].rank
    ensures InOrder(s', line)
  {
  }

  lemma InOrderWithout(s: State, a: seq<JobId>, j: JobId, b: seq<JobId>)
    requires InOrder(s, a + [j] + b)
    ensures InOrder(s, a + b)
  {
    var long, short := a + [j] + b, a + b;
    forall p | 0 <= p < |short|
      ensures short[p] == long[if p < |a| then p else p + 1]
    {
    }
  }

  // Everybody in line before, and behind, the job in the hand of stage i.
  function Before(s: State, i: nat): seq<JobId>
    requires OneWorkerEach(s) && i < STAGES
  {
    if i == 2 then s.finished
    else if i == 1 then s.finished + Segment(s.stages[2])
    else s.finished + Segment(s.stages[2]) + Segment(s.stages[1])
  }

  function After(s: State, i: nat): seq<JobId>
    requires OneWorkerEach(s) && i < STAGES
  {
    if i == 2 then s.stages[2].buf + Segment(s.stages[1]) + Segment(s.stages[0])
    else if i == 1 then s.stages[1].buf + Segment(s.stages[0])
    else s.stages[0].buf
  }

  lemma LineAround(s: State, i: nat)
    requires OneWorkerEach(s) && i < STAGES
    ensures Line(s) == Before(s, i) + InHand(s.stages[i].workers[0]) + After(s, i)
  {
  }

  lemma QuietLine(s: State, i: nat, w: nat, x: WorkStep)
    requires Inv(s) && OneWorkerEach(s) && WorkEnabled(s, i, w, x)
    requires x.Receive? || x.ExitClosed? || x.ExitCancelled? || (x.Succeed? && i + 1 < STAGES)
    ensures var s' := WorkApply(s, i, w, x); OneWorkerEach(s') && Line(s') == Line(s)
  {
    var s' := WorkApply(s, i, w, x);
    assert Segment(s'.stages[i]) == Segment(s.stages[i]);
  }

  lemma FinishLine(s: State, w: nat)
    requires Inv(s) && OneWorkerEach(s) && WorkEnabled(s, 2, w, Succeed)
    ensures var s' := WorkApply(s, 2, w, Succeed); OneWorkerEach(s') && Line(s') == Line(s)
  {
    LineAround(s, 2);
    LineAround(WorkApply(s, 2, w, Succeed), 2);
  }

  // A step that only changes the hand of stage i.
  lemma HandLine(s: State, s': State, i: nat)
    requires OneWorkerEach(s) && OneWorkerEach(s') && i < STAGES && s'.finished == s.finished
    requires s'.stages == s.stages[i := s.stages[i].(workers := s'.stages[i].workers)]
    ensures Line(s) == Before(s, i) + InHand(s.stages[i].workers[0]) + After(s, i)
    ensures Line(s') == Before(s, i) + InHand(s'.stages[i].workers[0]) + After(s, i)
  {
    LineAround(s, i);
    LineAround(s', i);
  }

  lemma RetireShape(s: State, i: nat, w: nat, x: WorkStep)
    requires Inv(s) && OneWorkerEach(s) && WorkEnabled(s, i, w, x) && (x.Fail? || x.Drop?)
    ensures var s' := WorkApply(s, i, w, x);
      && OneWorkerEach(s') && s'.finished == s.finished
      && s'.stages == s.stages[i := s.stages[i].(workers := s'.stages[i].workers)]
      && InHand(s'.stages[i].workers[0]) == [] && InHand(s.stages[i].workers[0]) == [s.stages[i].workers[0].job]
  {
  }

  lemma RetireLine(s: State, i: nat, w: nat, x: WorkStep)
    requires Inv(s) && OneWorkerEach(s) && WorkEnabled(s, i, w, x) && (x.Fail? || x.Drop?)
    ensures var s' := WorkApply(s, i, w, x);
      && OneWorkerEach(s')
      && Line(s) == Before(s, i) + [s.stages[i].workers[0].job] + After(s, i)
      && Line(s') == Before(s, i) + After(s, i)
  {
    RetireShape(s, i, w, x);
    HandLine(s, WorkApply(s, i, w, x), i);
  }

  // A piece moved across the end of one piece and the beginning of the next.
  lemma Regroup(a: seq<JobId>, b: seq<JobId>, j: JobId, c: seq<JobId>, d: seq<JobId>)
    ensures a + (b + [j]) + c + d == a + b + ([j] + c) + d
  {
  }

  // A worker hands its job to the buffer in front of it.
  lemma PassLine(s: State, s': State, i: nat, j: JobId)
    requires OneWorkerEach(s) && OneWorkerEach(s') && i + 1 < STAGES && s'.finished == s.finished
    requires s.stages[i].workers[0] == Sending(j)
    requires s'.stages ==
        s.stages[i := s.stages[i].(workers := [Idle])][i + 1 := s.stages[i + 1].(buf := s.stages[i + 1].buf + [j])]
    ensures Line(s') == Line(s)
  {
    var next, buf := Segment(s.stages[i + 1]), s.stages[i].buf;
    assert Segment(s'.stages[i + 1]) == next + [j] && Segment(s'.stages[i]) == buf && Segment(s.stages[i]) == [j] + buf;
    if i == 1 {
      Regroup(s.finished, next, j, buf, Segment(s.stages[0]));
    } else {
      Regroup(s.finished + Segment(s.stages[2]), next, j, buf, []);
      assert Line(s') == s.finished + Segment(s.stages[2]) + (next + [j]) + buf + [];
      assert Line(s) == s.finished + Segment(s.stages[2]) + next + ([j] + buf) + [];
    }
  }

  lemma SendLine(s: State, i: nat, w: nat)
    requires Inv(s) && OneWorkerEach(s) && WorkEnabled(s, i, w, Send)
    ensures var s' := WorkApply(s, i, w, Send); OneWorkerEach(s') && Line(s') == Line(s)
  {
    NextOpen(s, i, w);
    assert s.stages[i].workers[w := Idle] == [Idle];
    PassLine(s, WorkApply(s, i, w, Send), i, s.stages[i].workers[0].job);
  }

  lemma WorkOrder(s: State, i: nat, w: nat, x: WorkStep)
    requires Inv(s) && OrderInv(s) && WorkEnabled(s, i, w, x)
    ensures OrderInv(WorkApply(s, i, w, x))
  {
    var s' := WorkApply(s, i, w, x);
    WorkFrame(s, i, w, x);
    if x.Fail? || x.Drop? {
      RetireLine(s, i, w, x);
      InOrderWithout(s, Before(s, i), s.stages[i].workers[0].job, After(s, i));
    } else if x.Send? {
      SendLine(s, i, w);
    } else if x.Succeed? && i + 1 == STAGES {
      FinishLine(s, w);
    } else {
      QuietLine(s, i, w, x);
    }
    InOrderFrame(s, s', Line(s'));
  }

  lemma CallOrder(s: State, k: nat, c: CallStep)
    requires Inv(s) && OrderInv(s) && CallEnabled(s, k, c)
    ensures OrderInv(CallApply(s, k, c))
  {
    CallControl(s, k, c);
    assert CallOk(s, k);
    var s' := CallApply(s, k, c);
    assert OneWorkerEach(s');
    InOrderFrame(s, s', Line(s));
    if c.Deliver? {
      assert Line(s') == Line(s) + [k];
    } else {
      assert Line(s') == Line(s);
    }
  }

  lemma ShutOrder(s: State, h: nat, x: ShutStep)
    requires Inv(s) && OrderInv(s) && ShutEnabled(s, h, x)
    ensures OrderInv(ShutApply(s, h, x))
  {
    ShutControl(s, h, x);
    var s' := ShutApply(s, h, x);
    assert OneWorkerEach(s') && Line(s') == Line(s);
    InOrderFrame(s, s', Line(s));
  }

  lemma CloseOutOrder(s: State, i: nat)
    requires Inv(s) && OrderInv(s) && CloseOutEnabled(s, i)
    ensures OrderInv(CloseOutApply(s, i))
  {
    CloseOutControl(s, i);
    var s' := CloseOutApply(s, i);
    assert OneWorkerEach(s') && Line(s') == Line(s);
    InOrderFrame(s, s', Line(s));
  }

  lemma OrderStep(s: State, a: Action)
    requires Inv(s) && OrderInv(s) && Enabled(s, a)
    ensures OrderInv(Apply(s, a))
  {
    match a
    case Start => InOrderFrame(s, Apply(s, a), Line(s));
    case Call(k, c) => CallOrder(s, k, c);
    case Shut(h, x) => ShutOrder(s, h, x);
    case Work(i, w, x) => WorkOrder(s, i, w, x);
    case CloseOut(i) => CloseOutOrder(s, i);
  }

  lemma {:induction false} ReachableOrder(s0: State, run: seq<Action>, s: State)
    requires Inv(s0) && OrderInv(s0) && Reaches(s0, run, s)
    ensures Inv(s) && OrderInv(s)
    decreases |run|
  {
    if run != [] {
      InvStep(s0, run[0]);
      OrderStep(s0, run[0]);
      ReachableOrder(Apply(s0, run[0]), run[1..], s);
    }
  }

  /** Of two finished jobs, the one accepted first finished first. */
  lemma FinishInAcceptanceOrder(o: Options, calls: nat, shuts: nat, run: seq<Action>, s: State, a: nat, b: nat)
    requires |o.workers| == |o.buffers| == STAGES && forall i :: 0 <= i < STAGES ==> o.workers[i] <= 1
    requires Reaches(Init(o, calls, shuts), run, s)
    requires a < b < |s.finished|
    ensures exists p, q :: 0 <= p < q < |s.accepted| && s.accepted[p] == s.finished[a] && s.accepted[q] == s.finished[b]
  {
    InitInv(o, calls, shuts);
    ReachableOrder(Init(o, calls, shuts), run, s);
    var x, y := s.finished[a], s.finished[b];
    assert Line(s)[a] == x && Line(s)[b] == y;
    assert LogOk(s, x) && LogOk(s, y);
    assert s.accepted[s.jobs[x].rank] == x && s.accepted[s.jobs[y].rank] == y;
  }
}
