/** internal/store/store.go as it runs when nothing interrupts it: doWrite, Close and the writer's loop on the
    store's own fields, and that doWrite is then a run of the transition system. */
module StoreCode {
  import opened Store
  import opened StoreSafety
  import opened StoreRefinement

  // What doWrite returns: `ctxDead` is ctx.Err() at the top, `ctxLate` that the last select takes ctx.Done(),
  // `ok` whether the table takes the operation.
  function ResultOf(stopped: bool, ctxDead: bool, ok: bool, ctxLate: bool): Result {
    if ctxDead then CtxEarly else if stopped then ErrClosed else if ctxLate then CtxLate else Own(ok)
  }

  predicate Executes(r: Result) {
    r.Own? || r.CtxLate?
  }

  class SingleWriter<Row> {
    var stopped: bool
    var closed: bool
    var db: Table<Row>

    constructor ()
      ensures !stopped && !closed && db == map[]
    {
      stopped, closed, db := false, false, map[];
    }

    // One operation on the writer's goroutine; `willing` is what the database makes of it.
    method Execute(op: Op<Row>, willing: bool) returns (ok: bool)
      modifies `db
      ensures ok == (willing && Allowed(old(db), op, true)) && db == Effect(old(db), op, ok)
    {
      ok := willing && !(op.Create? && op.id in db);
      if !ok {
        return;
      }
      match op
      case Create(id, row) => db := db[id := row];
      case Save(id, row) => db := db[id := row];
      case Delete(id) => db := db - {id};
    }

    // The range loop of writerLoop over the operations handed to it, in order.
    method WriterLoop(ops: seq<Op<Row>>, writes: seq<nat>, willing: seq<bool>) returns (log: seq<Executed>)
      requires |willing| == |writes| && forall p :: 0 <= p < |writes| ==> writes[p] < |ops|
      modifies `db
      ensures CallsOf(log) == writes
      ensures forall p :: 0 <= p < |log| ==> log[p].call < |ops|
      ensures db == Replay(old(db), ops, log)
      ensures forall p :: 0 <= p < |log| ==>
        log[p].ok == (willing[p] && Allowed(Replay(old(db), ops, log[..p]), ops[log[p].call], true))
    {
      log := [];
      for i := 0 to |writes|
        invariant |log| == i && forall p :: 0 <= p < i ==> log[p].call == writes[p]
        invariant db == Replay(old(db), ops, log)
        invariant forall p :: 0 <= p < i ==>
          log[p].ok == (willing[p] && Allowed(Replay(old(db), ops, log[..p]), ops[log[p].call], true))
      {
        var ok := Execute(ops[writes[i]], willing[i]);
        ghost var before := log;
        log := log + [Executed(writes[i], ok)];
        assert log[..i] == before;
        assert forall p :: 0 <= p < i ==> log[..p] == before[..p];
      }
    }

    // doWrite with the writer at rest and mu free.
    method DoWrite(op: Op<Row>, ctxDead: bool, willing: bool, ctxLate: bool) returns (r: Result)
      modifies `db
      ensures r == ResultOf(stopped, ctxDead, willing && Allowed(old(db), op, true), ctxLate)
      ensures db == Effect(old(db), op, Executes(r) && willing && Allowed(old(db), op, true))
    {
      if ctxDead {
        return CtxEarly;
      }
      if stopped {
        return ErrClosed;
      }
      var ok := Execute(op, willing);
      r := if ctxLate then CtxLate else Own(ok);
    }

    method Close()
      modifies `stopped, `closed
      ensures stopped && closed == (old(closed) || !old(stopped))
    {
      if stopped {
        return;
      }
      stopped := true;
      closed := true;
    }
  }

  // mu is free, the writer ranges or the store is stopped, and the call is about to begin.
  ghost predicate Quiescent(s: State, c: nat) {
    Inv(s) && c < |s.calls| && s.calls[c] == Idle && s.lock == Free && (s.writer == Ranging || s.stopped)
  }

  ghost predicate AtRest(s: State, c: nat) {
    Quiescent(s, c) && !s.stopped
  }

  // The call has been handed over, executed and replied to.
  function Served(s: State, c: nat, ok: bool): State
    requires c < |s.calls| == |s.replies| == |s.ran|
  {
    s.(calls := s.calls[c := Waiting], replies := s.replies[c := [ok]], ran := s.ran[c := [ok]],
       handed := s.handed + [c], log := s.log + [Executed(c, ok)], events := s.events + [Began(c)] + [Ran(c, ok)])
  }

  lemma Cons(s: State, a: Action, run: seq<Action>, s': State)
    requires Enabled(s, a) && Reaches(Apply(s, a), run, s')
    ensures Reaches(s, [a] + run, s')
  {
    assert ([a] + run)[1..] == run;
  }

  lemma One(s: State, a: Action)
    requires Enabled(s, a)
    ensures Reaches(s, [a], Apply(s, a))
  {
    assert Reaches(Apply(s, a), [], Apply(s, a));
    Cons(s, a, [], Apply(s, a));
  }

  lemma {:induction false} Then(s0: State, a: seq<Action>, s1: State, b: seq<Action>, s2: State)
    requires Reaches(s0, a, s1) && Reaches(s1, b, s2)
    ensures Reaches(s0, a + b, s2)
    decreases |a|
  {
    if a == [] {
      assert a + b == b;
    } else {
      assert (a + b)[1..] == a[1..] + b;
      Then(Apply(s0, a[0]), a[1..], s1, b, s2);
    }
  }

  // The call holds mu.
  function LockedAt(s: State, c: nat): State
    requires c < |s.calls|
  {
    s.(calls := s.calls[c := Locked], lock := ByCall(c), events := s.events + [Began(c)])
  }

  function LockSteps(c: nat): seq<Action> {
    [Call(c, Begin)] + ([Call(c, PassCtx)] + [Call(c, Acquire)])
  }

  lemma LockedRun(s: State, c: nat)
    requires Quiescent(s, c)
    ensures Reaches(s, LockSteps(c), LockedAt(s, c))
  {
    var s1 := SetCall(s, c, Checking).(events := s.events + [Began(c)]);
    var s2, s3 := SetCall(s1, c, Wanting), LockedAt(s, c);
    assert Apply(s, Call(c, Begin)) == s1;
    assert Apply(s1, Call(c, PassCtx)) == s2;
    assert Apply(s2, Call(c, Acquire)) == s3 by { assert s2.calls[c := Locked] == s3.calls; }
    One(s2, Call(c, Acquire));
    Cons(s1, Call(c, PassCtx), [Call(c, Acquire)], s3);
    Cons(s, Call(c, Begin), [Call(c, PassCtx)] + [Call(c, Acquire)], s3);
  }

  function HandSteps(c: nat): seq<Action> {
    [Call(c, Hand)] + [Call(c, HandOff)]
  }

  function HandRun(c: nat): seq<Action> {
    LockSteps(c) + HandSteps(c)
  }

  function HandedOver(s: State, c: nat): State
    requires c < |s.calls|
  {
    s.(calls := s.calls[c := Handed], lock := ByCall(c), writer := Executing(c), handed := s.handed + [c],
       events := s.events + [Began(c)])
  }

  lemma HandOverRun(s: State, c: nat)
    requires AtRest(s, c)
    ensures Reaches(s, HandRun(c), HandedOver(s, c))
  {
    var s3, s5 := LockedAt(s, c), HandedOver(s, c);
    var s4 := SetCall(s3, c, Handing);
    LockedRun(s, c);
    assert Apply(s3, Call(c, Hand)) == s4;
    assert Apply(s4, Call(c, HandOff)) == s5 by { assert s4.calls[c := Handed] == s5.calls; }
    One(s4, Call(c, HandOff));
    Cons(s3, Call(c, Hand), [Call(c, HandOff)], s5);
    Then(s, LockSteps(c), s3, HandSteps(c), s5);
  }

  function ServeRun(c: nat, ok: bool): seq<Action> {
    [Call(c, Release)] + ([Write(Run(ok))] + [Write(Reply)])
  }

  lemma ServedRun(s: State, c: nat, ok: bool)
    requires AtRest(s, c)
    ensures Reaches(HandedOver(s, c), ServeRun(c, ok), Served(s, c, ok))
  {
    assert CallOk(s, c);
    var s1 := HandedOver(s, c);
    var s2 := SetCall(s1, c, Waiting).(lock := Free);
    var s3 := s2.(writer := Replying(c, ok), ran := s.ran[c := [ok]], log := s.log + [Executed(c, ok)],
        events := s1.events + [Ran(c, ok)]);
    var s4 := Served(s, c, ok);
    assert Apply(s1, Call(c, Release)) == s2;
    assert Apply(s2, Write(Run(ok))) == s3 by { assert s2.ran[c] + [ok] == [ok]; }
    assert Apply(s3, Write(Reply)) == s4 by { assert s3.replies[c] + [ok] == [ok]; assert s3.calls == s4.calls; }
    One(s3, Write(Reply));
    Cons(s2, Write(Run(ok)), [Write(Reply)], s4);
    Cons(s1, Call(c, Release), [Write(Run(ok))] + [Write(Reply)], s4);
  }

  // Where a call has returned r, with what it did to the log.
  ghost predicate ReturnedFrom(s: State, s': State, c: nat, ok: bool, r: Result)
    requires c < |s.calls|
  {
    && s'.calls == s.calls[c := Returned(r)]
    && s'.log == s.log + (if Executes(r) then [Executed(c, ok)] else [])
    && s'.writer == s.writer && s'.lock == Free && s'.stopped == s.stopped
  }

  lemma EarlyRun(s: State, c: nat, ok: bool)
    requires Quiescent(s, c)
    ensures exists run, s' :: Reaches(s, run, s') && ReturnedFrom(s, s', c, ok, CtxEarly)
  {
    var s1 := Apply(s, Call(c, Begin));
    One(s1, Call(c, DieEarly));
    Cons(s, Call(c, Begin), [Call(c, DieEarly)], Apply(s1, Call(c, DieEarly)));
    assert Apply(s1, Call(c, DieEarly)).calls == s.calls[c := Returned(CtxEarly)];
    assert ReturnedFrom(s, Apply(s1, Call(c, DieEarly)), c, ok, CtxEarly);
  }

  lemma StoppedRun(s: State, c: nat, ok: bool)
    requires Quiescent(s, c) && s.stopped
    ensures exists run, s' :: Reaches(s, run, s') && ReturnedFrom(s, s', c, ok, ErrClosed)
  {
    var s1 := LockedAt(s, c);
    var s2 := Apply(s1, Call(c, SeeStopped));
    LockedRun(s, c);
    One(s1, Call(c, SeeStopped));
    Then(s, LockSteps(c), s1, [Call(c, SeeStopped)], s2);
    assert s2.calls == s.calls[c := Returned(ErrClosed)];
    assert ReturnedFrom(s, s2, c, ok, ErrClosed);
  }

  lemma ServedToTheEnd(s: State, c: nat, ok: bool, ctxLate: bool)
    requires AtRest(s, c)
    ensures exists run, s' :: Reaches(s, run, s') && ReturnedFrom(s, s', c, ok, if ctxLate then CtxLate else Own(ok))
  {
    HandOverRun(s, c);
    ServedRun(s, c, ok);
    var s4 := Served(s, c, ok);
    var last := Call(c, if ctxLate then DieLate else TakeReply);
    One(s4, last);
    Then(s, HandRun(c), HandedOver(s, c), ServeRun(c, ok), s4);
    Then(s, HandRun(c) + ServeRun(c, ok), s4, [last], Apply(s4, last));
    assert Apply(s4, last).calls == s.calls[c := Returned(if ctxLate then CtxLate else Own(ok))];
    assert ReturnedFrom(s, Apply(s4, last), c, ok, if ctxLate then CtxLate else Own(ok));
  }

  /** doWrite, uninterrupted, is on each of its paths a run of the transition system: it ends with the result the
      method returns, and the operation has run once exactly where the method executes it. */
  lemma DoWriteIsRun(s: State, c: nat, ctxDead: bool, ok: bool, ctxLate: bool)
    requires Quiescent(s, c)
    ensures var r := ResultOf(s.stopped, ctxDead, ok, ctxLate);
      exists run, s' :: Reaches(s, run, s') && ReturnedFrom(s, s', c, ok, r)
  {
    if ctxDead {
      EarlyRun(s, c, ok);
    } else if s.stopped {
      StoppedRun(s, c, ok);
    } else {
      ServedToTheEnd(s, c, ok, ctxLate);
    }
  }

  // Where a Close that nothing interrupts leaves the store.
  function AfterClose(s: State, d: nat): State
    requires d < |s.closers|
  {
    if s.stopped then s.(closers := s.closers[d := WasClosed])
    else s.(stopped := true, closed := true, writer := Gone, closers := s.closers[d := CReturned])
  }

  function ClosedSteps(d: nat): seq<Action> {
    [Close(d, CAcquire)] + [Close(d, SeeStoppedC)]
  }

  function ClosingSteps(d: nat): seq<Action> {
    [Close(d, CAcquire)] + ([Close(d, Stop)] + ([Close(d, CloseWrites)] +
    ([Close(d, CRelease)] + ([Write(Leave)] + [Close(d, SeeDone)]))))
  }

  // Closing an open store whose writer ranges over the empty channel: the writer leaves before Close returns.
  lemma ClosingRun(s: State, d: nat)
    requires Inv(s) && d < |s.closers| && s.closers[d] == CIdle && s.lock == Free && s.writer == Ranging && !s.stopped
    ensures Reaches(s, ClosingSteps(d), AfterClose(s, d))
  {
    var s1 := SetClose(s, d, CLocked).(lock := ByClose(d));
    var s2 := SetClose(s, d, CStopped).(lock := ByClose(d), stopped := true);
    var s3 := SetClose(s, d, CClosed).(lock := ByClose(d), stopped := true, closed := true);
    var s4 := SetClose(s, d, CWaiting).(stopped := true, closed := true);
    var s5, s6 := s4.(writer := Gone), SetClose(s, d, CReturned).(stopped := true, closed := true, writer := Gone);
    assert Apply(s, Close(d, CAcquire)) == s1;
    assert Apply(s1, Close(d, Stop)) == s2 by { assert s1.closers[d := CStopped] == s2.closers; }
    assert Apply(s2, Close(d, CloseWrites)) == s3 by { assert s2.closers[d := CClosed] == s3.closers; }
    assert Apply(s3, Close(d, CRelease)) == s4 by { assert s3.closers[d := CWaiting] == s4.closers; }
    assert Apply(s4, Write(Leave)) == s5;
    assert Apply(s5, Close(d, SeeDone)) == s6 by { assert s5.closers[d := CReturned] == s6.closers; }
    One(s5, Close(d, SeeDone));
    Cons(s4, Write(Leave), [Close(d, SeeDone)], s6);
    Cons(s3, Close(d, CRelease), [Write(Leave)] + [Close(d, SeeDone)], s6);
    Cons(s2, Close(d, CloseWrites), [Close(d, CRelease)] + ([Write(Leave)] + [Close(d, SeeDone)]), s6);
    Cons(s1, Close(d, Stop),
        [Close(d, CloseWrites)] + ([Close(d, CRelease)] + ([Write(Leave)] + [Close(d, SeeDone)])), s6);
    Cons(s, Close(d, CAcquire),
      [Close(d, Stop)] + ([Close(d, CloseWrites)] + ([Close(d, CRelease)] + ([Write(Leave)] + [Close(d, SeeDone)]))),
          s6);
  }

  lemma ClosedRun(s: State, d: nat)
    requires Inv(s) && d < |s.closers| && s.closers[d] == CIdle && s.lock == Free && s.stopped
    ensures Reaches(s, ClosedSteps(d), AfterClose(s, d))
  {
    var s1, s2 := SetClose(s, d, CLocked).(lock := ByClose(d)), s.(closers := s.closers[d := WasClosed]);
    assert Apply(s1, Close(d, SeeStoppedC)) == s2 by { assert s1.closers[d := WasClosed] == s2.closers; }
    One(s1, Close(d, SeeStoppedC));
    Cons(s, Close(d, CAcquire), [Close(d, SeeStoppedC)], s2);
  }

  /** Close, uninterrupted, is a run of the transition system: the Close that closes the store returns with the
      writer gone, any other one returns at once. */
  lemma CloseIsRun(s: State, d: nat) returns (run: seq<Action>)
    requires Inv(s) && d < |s.closers| && s.closers[d] == CIdle && s.lock == Free && (s.writer == Ranging || s.stopped)
    ensures Reaches(s, run, AfterClose(s, d))
  {
    run := if s.stopped then ClosedSteps(d) else ClosingSteps(d);
    if s.stopped { ClosedRun(s, d); } else { ClosingRun(s, d); }
  }
}
