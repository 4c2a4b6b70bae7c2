/** What holds in every reachable state of the store, for any number of writes and of Closes and any
    interleaving. */
module StoreTheorems {
  import opened Store
  import opened StoreSafety
  import opened Sums

  ghost predicate Reachable(s: State) {
    exists calls: nat, closers: nat, run :: Reaches(Init(calls, closers), run, s)
  }

  lemma Safe(s: State)
    requires Reachable(s)
    ensures Inv(s)
  {
    var calls: nat, closers: nat, run :| Reaches(Init(calls, closers), run, s);
    InitInv(calls, closers);
    ReachableInv(Init(calls, closers), run, s);
  }

  /** No send on, and no second close of, `writes`; and the writer never waits for room in a reply slot. */
  lemma NeverPanics(s: State)
    requires Reachable(s)
    ensures !s.panicked
    ensures s.writer.Replying? ==> Enabled(s, Write(Reply))
  {
    Safe(s);
    if s.writer.Replying? { assert CallOk(s, s.writer.call); }
  }

  lemma HandedWhenGone(s: State, c: nat)
    requires Inv(s) && c < |s.calls| && WasHanded(s.calls[c])
    ensures c in s.handed && (|s.ran[c]| == 1 || s.writer == Executing(c))
  {
    assert CallOk(s, c);
    if s.ran[c] != [] {
      var p :| 0 <= p < |s.log| && s.log[p] == Executed(c, s.ran[c][0]);
      assert CallsOf(s.log)[p] == c && s.handed[p] == c;
    } else {
      assert s.handed[|s.handed| - 1] == c;
    }
  }

  /** An operation runs at most once, and only if it was handed over; a doWrite that returns an
      operation's result returns its own; one that returns before the hand-off never runs; one that gives up
      after the hand-off has run, or its operation is the one being executed. */
  lemma RunsAtMostOnce(s: State, c: nat)
    requires Reachable(s) && c < |s.calls|
    ensures c < |s.ran| && |s.ran[c]| <= 1
    ensures forall ok :: s.ran[c] == [ok] <==> Executed(c, ok) in s.log
    ensures s.ran[c] != [] ==> c in s.handed
    ensures forall ok :: s.calls[c] == Returned(Own(ok)) ==> s.ran[c] == [ok]
    ensures s.calls[c] == Returned(CtxEarly) || s.calls[c] == Returned(ErrClosed) ==> c !in s.handed && s.ran[c] == []
    ensures s.calls[c] == Returned(CtxLate) ==> c in s.handed && (|s.ran[c]| == 1 || s.writer == Executing(c))
  {
    Safe(s);
    assert CallOk(s, c);
    if s.calls[c] == Returned(CtxLate) { HandedWhenGone(s, c); }
    if c in s.handed {
      var p :| 0 <= p < |s.handed| && s.handed[p] == c;
      assert p < |s.log| ==> s.log[p].call == c;
    }
    if s.ran[c] != [] {
      var p :| 0 <= p < |s.log| && s.log[p] == Executed(c, s.ran[c][0]);
      assert s.handed[p] == c;
    }
  }

  /** The writer runs operations one after the other in the order of the hand-offs. */
  lemma RunsInHandOffOrder(s: State)
    requires Reachable(s)
    ensures |s.log| <= |s.handed| <= |s.log| + 1
    ensures forall p :: 0 <= p < |s.log| ==> s.log[p].call == s.handed[p]
  {
    Safe(s);
    forall p | 0 <= p < |s.log| ensures s.log[p].call == s.handed[p] {
      assert CallsOf(s.log)[p] == s.log[p].call;
    }
  }

  /** When a Close that did the closing returns, every operation handed over has run exactly once, that of a
      doWrite that gave up with ctx.Err() after the hand-off included, */
  lemma CloseFlushes(s: State, d: nat, c: nat)
    requires Reachable(s) && d < |s.closers| && s.closers[d] == CReturned
    requires c in s.handed || (c < |s.calls| && s.calls[c] == Returned(CtxLate))
    ensures c < |s.ran| && |s.ran[c]| == 1 && exists ok :: Executed(c, ok) in s.log
  {
    Safe(s);
    assert CloseOk(s, d);
    RunsInHandOffOrder(s);
    if c !in s.handed { HandedWhenGone(s, c); }
    var p :| 0 <= p < |s.handed| && s.handed[p] == c;
    assert s.log[p] == Executed(c, s.log[p].ok);
  }

  /** and nothing runs after it. */
  lemma {:induction false} NothingRunsAfterClose(s: State, run: seq<Action>, s': State)
    requires Inv(s) && s.writer == Gone && Reaches(s, run, s')
    ensures s'.log == s.log && s'.writer == Gone
    decreases |run|
  {
    if run != [] {
      InvStep(s, run[0]);
      NothingRunsAfterClose(Apply(s, run[0]), run[1..], s');
    }
  }

  // Execution happens inside the call: events in order.

  function RunsOf(events: seq<Event>): seq<Executed> {
    if events == [] then []
    else
      var last := events[|events| - 1];
      RunsOf(events[..|events| - 1]) + if last.Ran? then [Executed(last.call, last.ok)] else []
  }

  ghost predicate Before(events: seq<Event>, e: Event, n: nat)
    requires n <= |events|
  {
    exists b :: 0 <= b < n && events[b] == e
  }

  ghost predicate EventsOk(s: State) {
    && |s.calls| == |s.ran|
    && RunsOf(s.events) == s.log
    && (forall c :: 0 <= c < |s.calls| && s.calls[c] != Idle ==> Before(s.events, Began(c), |s.events|))
    && (forall c :: 0 <= c < |s.calls| && s.ran[c] != [] ==> Before(s.events, Ran(c, s.ran[c][0]), |s.events|))
    && (forall n :: 0 <= n < |s.events| && s.events[n].Ran? ==> Before(s.events, Began(s.events[n].call), n))
    && (forall n :: 0 <= n < |s.events| && s.events[n].Ended? && s.events[n].result.Own? ==>
          Before(s.events, Ran(s.events[n].call, s.events[n].result.ok), n))
  }

  lemma BeforeGrows(events: seq<Event>, e: Event, f: Event)
    ensures forall n :: 0 <= n <= |events| && Before(events, e, n) ==> Before(events + [f], e, n)
    ensures Before(events, e, |events|) ==> Before(events + [f], e, |events| + 1)
    ensures Before(events + [f], f, |events| + 1)
  {
    assert (events + [f])[|events|] == f;
    forall n | 0 <= n <= |events| && Before(events, e, n) ensures Before(events + [f], e, n) {
      var b :| 0 <= b < n && events[b] == e;
      assert (events + [f])[b] == e;
    }
  }

  // An event appended keeps the order facts if it has what it needs before it.
  lemma AppendOk(s: State, s': State, f: Event)
    requires EventsOk(s) && s'.events == s.events + [f] && |s'.calls| == |s'.ran| == |s.calls|
    requires s'.log == s.log + if f.Ran? then [Executed(f.call, f.ok)] else []
    requires forall c :: 0 <= c < |s.calls| && s'.calls[c] != Idle ==> s.calls[c] != Idle || f == Began(c)
    requires forall c :: 0 <= c < |s.calls| && s'.ran[c] != [] ==> s'.ran[c] == s.ran[c] || f == Ran(c, s'.ran[c][0])
    requires f.Ran? ==> Before(s.events, Began(f.call), |s.events|)
    requires f.Ended? && f.result.Own? ==> Before(s.events, Ran(f.call, f.result.ok), |s.events|)
    ensures EventsOk(s')
  {
    assert s'.events[..|s.events|] == s.events;
    forall e { BeforeGrows(s.events, e, f); }
  }

  lemma CallEvents(s: State, c: nat, x: CallStep)
    requires Inv(s) && EventsOk(s) && CallEnabled(s, c, x)
    ensures EventsOk(CallApply(s, c, x))
  {
    var s' := CallApply(s, c, x);
    CallControl(s, c, x);
    assert CallOk(s, c);
    if |s'.events| > |s.events| { AppendOk(s, s', s'.events[|s.events|]); }
  }

  lemma WriteEvents(s: State, x: WriterStep)
    requires Inv(s) && EventsOk(s) && WriteEnabled(s, x)
    ensures EventsOk(WriteApply(s, x))
  {
    var s' := WriteApply(s, x);
    if x.Run? {
      assert CallOk(s, s.writer.call);
      AppendOk(s, s', s'.events[|s.events|]);
    }
  }

  lemma EventsStep(s: State, a: Action)
    requires Inv(s) && EventsOk(s) && Enabled(s, a)
    ensures EventsOk(Apply(s, a))
  {
    match a
    case Call(c, x) => CallEvents(s, c, x);
    case Close(d, x) => CloseControl(s, d, x);
    case Write(x) => WriteEvents(s, x);
  }

  lemma {:induction false} ReachableEvents(s0: State, run: seq<Action>, s: State)
    requires Inv(s0) && EventsOk(s0) && Reaches(s0, run, s)
    ensures EventsOk(s)
    decreases |run|
  {
    if run != [] {
      InvStep(s0, run[0]);
      EventsStep(s0, run[0]);
      ReachableEvents(Apply(s0, run[0]), run[1..], s);
    }
  }

  /** Linearization: when a doWrite returns its operation's result, that operation ran after the call began
      and before it returned; and the runs, in order, are the log. */
  lemma RunsInsideItsCall(s: State, end: nat)
    requires Reachable(s) && end < |s.events|
    requires s.events[end].Ended? && s.events[end].result.Own?
    ensures exists b, r :: 0 <= b < r < end && s.events[b] == Began(s.events[end].call) &&
                           s.events[r] == Ran(s.events[end].call, s.events[end].result.ok)
    ensures RunsOf(s.events) == s.log
  {
    var calls: nat, closers: nat, run :| Reaches(Init(calls, closers), run, s);
    InitInv(calls, closers);
    ReachableEvents(Init(calls, closers), run, s);
    var r :| 0 <= r < end && s.events[r] == Ran(s.events[end].call, s.events[end].result.ok);
    assert Before(s.events, Began(s.events[r].call), r);
  }

  // Progress and termination.

  function CallWeight(pc: CallPc): nat {
    match pc
    case Idle => 9
    case Checking => 8
    case Wanting => 7
    case Locked => 6
    case Handing => 5
    case Handed => 2
    case Waiting => 1
    case Returned(_) => 0
  }

  function CloseWeight(pc: ClosePc): nat {
    match pc
    case CIdle => 6
    case CLocked => 5
    case CStopped => 4
    case CClosed => 3
    case CWaiting => 2
    case WasClosed => 0
    case CReturned => 0
  }

  function WriterWeight(w: Writer): nat {
    match w
    case Executing(_) => 3
    case Replying(_, _) => 2
    case Ranging => 1
    case Gone => 0
  }

  function Measure(s: State): nat {
    Sum(CallWeight, s.calls) + Sum(CloseWeight, s.closers) + WriterWeight(s.writer)
  }

  lemma CallDecreases(s: State, c: nat, x: CallStep)
    requires Inv(s) && CallEnabled(s, c, x)
    ensures Measure(CallApply(s, c, x)) < Measure(s)
  {
    CallControl(s, c, x);
    SumUpdate(CallWeight, s.calls, c, CallApply(s, c, x).calls[c]);
  }

  lemma CloseDecreases(s: State, d: nat, x: CloseStep)
    requires Inv(s) && CloseEnabled(s, d, x)
    ensures Measure(CloseApply(s, d, x)) < Measure(s)
  {
    CloseControl(s, d, x);
    SumUpdate(CloseWeight, s.closers, d, CloseApply(s, d, x).closers[d]);
  }

  lemma StepDecreases(s: State, a: Action)
    requires Inv(s) && Enabled(s, a)
    ensures Measure(Apply(s, a)) < Measure(s)
  {
    match a
    case Call(c, x) => CallDecreases(s, c, x);
    case Close(d, x) => CloseDecreases(s, d, x);
    case Write(_) =>
  }

  /** No run is longer than the measure of the state it starts in. */
  lemma {:induction false} RunsAreFinite(s0: State, run: seq<Action>, s: State)
    requires Inv(s0) && Reaches(s0, run, s)
    ensures |run| + Measure(s) <= Measure(s0)
    decreases |run|
  {
    if run != [] {
      StepDecreases(s0, run[0]);
      InvStep(s0, run[0]);
      RunsAreFinite(Apply(s0, run[0]), run[1..], s);
    }
  }

  // Steps taken only because a context is cancelled.
  predicate Cancelling(a: Action) {
    a.Call? && (a.call == DieEarly || a.call == DieLate)
  }

  // A step of something already under way: no call begins and the database is not asked to take anything.
  predicate UnderWay(a: Action) {
    match a
    case Call(_, x) => x != Begin
    case Close(_, x) => x != CAcquire
    case Write(x) => x.Run? ==> !x.ok
  }

  // The holder of mu moves; blocked at the hand-off, it is the writer that moves.
  lemma LockHolderMoves(s: State) returns (a: Action)
    requires Inv(s) && s.lock != Free
    ensures Enabled(s, a) && !Cancelling(a) && UnderWay(a)
  {
    match s.lock
    case ByCall(c) =>
      assert CallOk(s, c);
      if s.calls[c].Handing? {
        if s.writer.Replying? { assert CallOk(s, s.writer.call); }
        a := if s.writer == Ranging then Call(c, HandOff)
             else if s.writer.Executing? then Write(Run(false)) else Write(Reply);
      } else {
        a := Call(c, if s.calls[c].Handed? then Release else if s.stopped then SeeStopped else Hand);
      }
    case ByClose(d) =>
      assert CloseOk(s, d);
      a := Close(d, if s.closers[d].CStopped? then CloseWrites else if s.closers[d].CClosed? then CRelease
                    else if s.stopped then SeeStoppedC else Stop);
  }

  lemma CallMoves(s: State, c: nat) returns (a: Action)
    requires Inv(s) && c < |s.calls| && !s.calls[c].Returned?
    ensures Enabled(s, a) && !Cancelling(a) && (UnderWay(a) || (s.calls[c].Idle? && a == Call(c, Begin)))
  {
    assert CallOk(s, c);
    if s.lock != Free {
      a := LockHolderMoves(s);
    } else if s.calls[c].Waiting? && s.replies[c] == [] {
      a := if s.writer.Executing? then Write(Run(false)) else Write(Reply);
    } else {
      a := Call(c, if s.calls[c].Idle? then Begin else if s.calls[c].Checking? then PassCtx
                   else if s.calls[c].Wanting? then Acquire else TakeReply);
    }
  }

  lemma CloseMoves(s: State, d: nat) returns (a: Action)
    requires Inv(s) && d < |s.closers| && !s.closers[d].WasClosed? && !s.closers[d].CReturned?
    ensures Enabled(s, a) && !Cancelling(a) && (UnderWay(a) || a == Close(d, CAcquire))
  {
    assert CloseOk(s, d);
    if s.lock != Free {
      a := LockHolderMoves(s);
    } else if s.closers[d].CIdle? {
      a := Close(d, CAcquire);
    } else {
      if s.writer.Replying? { assert CallOk(s, s.writer.call); }
      a := match s.writer
           case Gone => Close(d, SeeDone)
           case Ranging => Write(Leave)
           case Executing(_) => Write(Run(false))
           case Replying(_, _) => Write(Reply);
    }
  }

  /** Deadlock freedom, without counting on any context to be cancelled: where nothing else can step, every
      doWrite and every Close has returned, and if there was a Close the writer is gone. */
  lemma StuckMeansFinished(s: State)
    requires Reachable(s) && forall a :: Enabled(s, a) ==> Cancelling(a)
    ensures forall c :: 0 <= c < |s.calls| ==> s.calls[c].Returned?
    ensures forall d :: 0 <= d < |s.closers| ==> s.closers[d].WasClosed? || s.closers[d].CReturned?
    ensures |s.closers| > 0 ==> s.writer == Gone
  {
    Safe(s);
    forall c | 0 <= c < |s.calls| ensures s.calls[c].Returned? {
      if !s.calls[c].Returned? { var a := CallMoves(s, c); }
    }
    forall d | 0 <= d < |s.closers| ensures s.closers[d].WasClosed? || s.closers[d].CReturned? {
      if !s.closers[d].WasClosed? && !s.closers[d].CReturned? { var a := CloseMoves(s, d); }
    }
    if |s.closers| > 0 {
      NeverPanics(s);
      assert CloseOk(s, 0);
      assert !Enabled(s, Write(Leave)) && !Enabled(s, Write(Run(false))) && !Enabled(s, Write(Reply));
      if s.lock != Free { var a := LockHolderMoves(s); }
    }
  }
}
