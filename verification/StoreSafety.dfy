module StoreSafety {
  import opened Store

  predicate HoldsLock(pc: CallPc) {
    pc.Locked? || pc.Handing? || pc.Handed?
  }

  predicate CloserHoldsLock(pc: ClosePc) {
    pc.CLocked? || pc.CStopped? || pc.CClosed?
  }

  // The operation of a call has been handed to the writer.
  predicate WasHanded(pc: CallPc) {
    pc.Handed? || pc.Waiting? || pc == Returned(CtxLate) || (pc.Returned? && pc.result.Own?)
  }

  // The closer that set `stopped` but has not closed the channel yet.
  predicate Closing(s: State) {
    s.lock.ByClose? && s.lock.close < |s.closers| && s.closers[s.lock.close].CStopped?
  }

  function CallsOf(log: seq<Executed>): (r: seq<nat>)
    ensures |r| == |log|
    ensures forall p :: 0 <= p < |log| ==> r[p] == log[p].call
  {
    seq(|log|, p requires 0 <= p < |log| => log[p].call)
  }

  ghost predicate ControlOk(s: State) {
    && |s.calls| == |s.replies| == |s.ran|
    && !s.panicked
    && (s.lock.ByCall? ==> s.lock.call < |s.calls| && HoldsLock(s.calls[s.lock.call]))
    && (s.lock.ByClose? ==> s.lock.close < |s.closers| && CloserHoldsLock(s.closers[s.lock.close]))
    && s.stopped == (s.closed || Closing(s))
    && (Closing(s) ==> !s.closed)
    && (s.writer == Gone ==> s.closed)
    && (s.lock.ByCall? && (s.calls[s.lock.call].Handing? || s.calls[s.lock.call].Handed?) ==> !s.stopped)
    && (s.lock.ByClose? && s.closers[s.lock.close].CClosed? ==> s.closed)
    && (s.writer.Executing? || s.writer.Replying? ==> s.writer.call < |s.calls|)
  }

  // The life of one operation: handed over at most once, run at most once, replied to at most once, and
  // what its caller gets is what it returned.
  ghost predicate CallOk(s: State, c: nat)
    requires c < |s.calls| == |s.replies| == |s.ran|
  {
    var pc, ran := s.calls[c], s.ran[c];
    var running, replying := s.writer == Executing(c), s.writer.Replying? && s.writer.call == c;
    && (HoldsLock(pc) ==> s.lock == ByCall(c))
    && |ran| <= 1
    && (WasHanded(pc) <==> running || ran != [])
    && (running ==> ran == [])
    && (replying ==> ran == [s.writer.ok] && s.replies[c] == [])
    && (s.replies[c] != [] ==> s.replies[c] == ran)
    && (pc.Returned? && pc.result.Own? ==> ran == [pc.result.ok] && s.replies[c] == [] && !replying)
    && ((pc.Handed? || pc.Waiting?) && ran != [] && s.replies[c] == [] ==> replying)
  }

  ghost predicate CloseOk(s: State, d: nat)
    requires d < |s.closers|
  {
    var pc := s.closers[d];
    && (CloserHoldsLock(pc) ==> s.lock == ByClose(d))
    && (pc.CWaiting? || pc.CReturned? ==> s.closed)
    && (pc.WasClosed? ==> s.stopped)
    && (pc.CReturned? ==> s.writer == Gone)
  }

  // Operations run one at a time, in the order of the hand-offs.
  ghost predicate OrderOk(s: State)
    requires |s.calls| == |s.ran|
  {
    && s.handed == CallsOf(s.log) + (if s.writer.Executing? then [s.writer.call] else [])
    && (forall p :: 0 <= p < |s.log| ==> s.log[p].call < |s.calls| && s.ran[s.log[p].call] == [s.log[p].ok])
    && (forall p, q :: 0 <= p < q < |s.log| ==> s.log[p].call != s.log[q].call)
    && (forall c :: 0 <= c < |s.calls| && s.ran[c] != [] ==> Executed(c, s.ran[c][0]) in s.log)
  }

  ghost predicate Inv(s: State) {
    && ControlOk(s)
    && (forall c :: 0 <= c < |s.calls| ==> CallOk(s, c))
    && (forall d :: 0 <= d < |s.closers| ==> CloseOk(s, d))
    && OrderOk(s)
  }

  lemma InitInv(calls: nat, closers: nat)
    ensures Inv(Init(calls, closers))
  {
  }

  // Preservation, by who steps.

  lemma CallControl(s: State, c: nat, x: CallStep)
    requires Inv(s) && CallEnabled(s, c, x)
    ensures ControlOk(CallApply(s, c, x))
  {
    assert CallOk(s, c);
  }

  lemma CloseControl(s: State, d: nat, x: CloseStep)
    requires Inv(s) && CloseEnabled(s, d, x)
    ensures ControlOk(CloseApply(s, d, x))
  {
    assert CloseOk(s, d);
  }

  lemma ControlStep(s: State, a: Action)
    requires Inv(s) && Enabled(s, a)
    ensures ControlOk(Apply(s, a))
  {
    match a
    case Call(c, x) => CallControl(s, c, x);
    case Close(d, x) => CloseControl(s, d, x);
    case Write(x) =>
  }

  lemma CallSelfOk(s: State, c: nat, x: CallStep)
    requires Inv(s) && CallEnabled(s, c, x)
    ensures var s' := CallApply(s, c, x); c < |s'.calls| == |s'.replies| == |s'.ran| && CallOk(s', c)
  {
    assert CallOk(s, c);
  }

  lemma CallOtherOk(s: State, c: nat, x: CallStep, c': nat)
    requires Inv(s) && CallEnabled(s, c, x) && c' < |s.calls| && c' != c
    ensures var s' := CallApply(s, c, x); c' < |s'.calls| == |s'.replies| == |s'.ran| && CallOk(s', c')
  {
    assert CallOk(s, c) && CallOk(s, c');
  }

  lemma CallCallOk(s: State, c: nat, x: CallStep, c': nat)
    requires Inv(s) && CallEnabled(s, c, x) && c' < |s.calls|
    ensures var s' := CallApply(s, c, x); c' < |s'.calls| == |s'.replies| == |s'.ran| && CallOk(s', c')
  {
    if c' == c { CallSelfOk(s, c, x); } else { CallOtherOk(s, c, x, c'); }
  }

  lemma CloseCallOk(s: State, d: nat, x: CloseStep, c': nat)
    requires Inv(s) && CloseEnabled(s, d, x) && c' < |s.calls|
    ensures var s' := CloseApply(s, d, x); c' < |s'.calls| == |s'.replies| == |s'.ran| && CallOk(s', c')
  {
    assert CloseOk(s, d) && CallOk(s, c');
  }

  lemma WriteCallOk(s: State, x: WriterStep, c': nat)
    requires Inv(s) && WriteEnabled(s, x) && c' < |s.calls|
    ensures var s' := WriteApply(s, x); c' < |s'.calls| == |s'.replies| == |s'.ran| && CallOk(s', c')
  {
    assert CallOk(s, c');
    if s.writer.Executing? || s.writer.Replying? { assert CallOk(s, s.writer.call); }
  }

  lemma CallCloseOk(s: State, c: nat, x: CallStep, d: nat)
    requires Inv(s) && CallEnabled(s, c, x) && d < |s.closers|
    ensures var s' := CallApply(s, c, x); d < |s'.closers| && CloseOk(s', d)
  {
    assert CallOk(s, c) && CloseOk(s, d);
  }

  lemma CloseCloseOk(s: State, d: nat, x: CloseStep, d': nat)
    requires Inv(s) && CloseEnabled(s, d, x) && d' < |s.closers|
    ensures var s' := CloseApply(s, d, x); d' < |s'.closers| && CloseOk(s', d')
  {
    assert CloseOk(s, d) && CloseOk(s, d');
  }

  lemma WriteCloseOk(s: State, x: WriterStep, d: nat)
    requires Inv(s) && WriteEnabled(s, x) && d < |s.closers|
    ensures var s' := WriteApply(s, x); d < |s'.closers| && CloseOk(s', d)
  {
    assert CloseOk(s, d);
  }

  lemma CallOrder(s: State, c: nat, x: CallStep)
    requires Inv(s) && CallEnabled(s, c, x)
    ensures var s' := CallApply(s, c, x); |s'.calls| == |s'.ran| && OrderOk(s')
  {
    assert CallOk(s, c);
    CallControl(s, c, x);
  }

  lemma WriteOrder(s: State, x: WriterStep)
    requires Inv(s) && WriteEnabled(s, x)
    ensures var s' := WriteApply(s, x); |s'.calls| == |s'.ran| && OrderOk(s')
  {
    if x.Run? {
      var s' := WriteApply(s, x);
      assert CallOk(s, s.writer.call);
      assert CallsOf(s'.log) == CallsOf(s.log) + [s.writer.call];
    }
  }

  lemma CloseOrder(s: State, d: nat, x: CloseStep)
    requires Inv(s) && CloseEnabled(s, d, x)
    ensures var s' := CloseApply(s, d, x); |s'.calls| == |s'.ran| && OrderOk(s')
  {
    CloseControl(s, d, x);
  }

  lemma OrderStep(s: State, a: Action)
    requires Inv(s) && Enabled(s, a)
    ensures |Apply(s, a).calls| == |Apply(s, a).ran| && OrderOk(Apply(s, a))
  {
    match a
    case Call(c, x) => CallOrder(s, c, x);
    case Close(d, x) => CloseOrder(s, d, x);
    case Write(x) => WriteOrder(s, x);
  }

  /** Every step keeps the invariant: in particular no step panics. */
  lemma InvStep(s: State, a: Action)
    requires Inv(s) && Enabled(s, a)
    ensures Inv(Apply(s, a))
  {
    var s' := Apply(s, a);
    ControlStep(s, a);
    OrderStep(s, a);
    forall c | 0 <= c < |s'.calls| ensures CallOk(s', c) {
      match a
      case Call(k, x) => CallCallOk(s, k, x, c);
      case Close(d, x) => CloseCallOk(s, d, x, c);
      case Write(x) => WriteCallOk(s, x, c);
    }
    forall d | 0 <= d < |s'.closers| ensures CloseOk(s', d) {
      match a
      case Call(k, x) => CallCloseOk(s, k, x, d);
      case Close(k, x) => CloseCloseOk(s, k, x, d);
      case Write(x) => WriteCloseOk(s, x, d);
    }
  }

  lemma {:induction false} ReachableInv(s0: State, run: seq<Action>, s: State)
    requires Inv(s0) && Reaches(s0, run, s)
    ensures Inv(s)
    decreases |run|
  {
    if run != [] {
      InvStep(s0, run[0]);
      ReachableInv(Apply(s0, run[0]), run[1..], s);
    }
  }
}
