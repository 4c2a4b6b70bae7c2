/** The invariant of the whole service, kept by every step. */
module SystemInv {
  import opened Extract
  import opened Invoice
  import opened StoreRefinement
  import opened System
  import opened SystemSafety
  import Cache
  import P = Pipeline
  import W = Store
  import PS = PipelineSafety
  import opened PipelineMoves
  import WS = StoreSafety

  // The store, seen from one job.

  lemma Slice<T>(xs: seq<T>, c: nat, x: T, j: nat)
    requires c < |xs| && 3 * j + 3 <= |xs|
    ensures xs[c := x][3 * j..3 * j + 3] ==
        if c / 3 == j then xs[3 * j..3 * j + 3][c % 3 := x] else xs[3 * j..3 * j + 3]
  {
  }

  lemma CallTells(w: W.State, c: nat, x: W.CallStep)
    requires WS.Inv(w) && W.CallEnabled(w, c, x) && x != W.Begin
    ensures var w' := W.CallApply(w, c, x);
      && c < |w.calls| == |w.ran| && w'.calls == w.calls[c := w'.calls[c]] && w'.ran == w.ran
      && w'.closers == w.closers && w'.stopped == w.stopped
      && InFlight(w.calls[c]) && w'.calls[c] != W.Idle
      && (w'.calls[c] == DONE_OK ==> w.ran[c] == [true])
      && (w'.calls[c] == W.Returned(W.ErrClosed) ==> w.stopped)
  {
    assert WS.CallOk(w, c);
    WS.CallControl(w, c, x);
  }

  lemma RunTells(w: W.State, ok: bool)
    requires WS.Inv(w) && W.WriteEnabled(w, W.Run(ok))
    ensures var c := w.writer.call;
      && c < |w.calls| == |w.ran| && w.ran[c] == [] && w.calls[c] != W.Idle && w.calls[c] != DONE_OK
      && W.WriteApply(w, W.Run(ok)).calls == w.calls && W.WriteApply(w, W.Run(ok)).ran == w.ran[c := [ok]]
  {
    assert WS.CallOk(w, w.writer.call);
    assert w.ran[w.writer.call] + [ok] == [ok];
  }

  // The invariant.

  // Some Shutdown of the started pipeline has returned.
  predicate ShutDown(p: P.State) {
    exists h :: 0 <= h < |p.shuts| && p.shuts[h] == P.ShutReturned
  }

  predicate NeverClosed(v: View)
    requires |v.cs| == 3
  {
    (v.call == ACCEPTED ==> v.cs[1] != W.Returned(W.ErrClosed)) && v.cs[2] != W.Returned(W.ErrClosed)
  }

  // The row in the table is what was written last.
  predicate RowIs(db: Table<Row>, j: nat, hist: seq<Ask>) {
    if hist != [] && hist[|hist| - 1].Put? then j in db && db[j] == hist[|hist| - 1].row else j !in db
  }

  ghost predicate ShelfFine(f: Facts, shelf: Cache.Shelf) {
    forall t :: t in shelf.entries ==> f.entry(t, shelf.entries[t])
  }

  ghost predicate JobInv(f: Facts, s: Sys, j: nat)
    requires Sized(s) && j < |s.jobs|
  {
    ViewInv(f, ViewOf(s, j)) && NeverClosed(ViewOf(s, j)) && RowIs(s.db, j, s.jobs[j].hist)
  }

  // The store is closed only after the pipeline is shut down.
  predicate CloseLate(s: Sys) {
    && (s.w.stopped ==> ShutDown(s.p))
    && forall d :: 0 <= d < |s.w.closers| && s.w.closers[d] != W.CIdle ==> ShutDown(s.p)
  }

  ghost predicate Inv(f: Facts, s: Sys) {
    && Sized(s) && PS.Inv(s.p) && WS.Inv(s.w) && CloseLate(s) && ShelfFine(f, s.shelf)
    && (forall j :: j in s.db ==> j < |s.jobs|)
    && forall j :: 0 <= j < |s.jobs| ==> JobInv(f, s, j)
  }

  // A job whose view and row stay as they are.
  lemma SameView(f: Facts, s: Sys, s': Sys, j: nat)
    requires Sized(s) && Sized(s') && j < |s.jobs| == |s'.jobs| && JobInv(f, s, j)
    requires ViewOf(s', j) == ViewOf(s, j)
    requires (j in s'.db <==> j in s.db) && (j in s.db ==> s'.db[j] == s.db[j])
    ensures JobInv(f, s', j)
  {
  }

  // Pipeline steps.

  lemma PipeCallJob(f: Facts, s: Sys, k: nat, x: P.CallStep, j: nat)
    requires Inv(f, s) && PipeEnabled(s, P.Call(k, x)) && j < |s.jobs|
    ensures var s' := PipeApply(s, P.Call(k, x)); Sized(s') && |s'.jobs| == |s.jobs| && JobInv(f, s', j)
  {
    var s' := PipeApply(s, P.Call(k, x));
    CallMoves(s.p, k, x, j);
    assert JobInv(f, s, j);
    if j == k {
      var v := ViewOf(s, k);
      CallView(f, v, s'.p.calls[k]);
      assert ViewOf(s', k) == v.(call := s'.p.calls[k], place := s'.p.jobs[k].place);
    } else {
      SameView(f, s, s', j);
    }
  }

  lemma PipeWorkSized(s: Sys, i: nat, w: nat, x: P.WorkStep)
    requires Sized(s) && PS.Inv(s.p) && PipeEnabled(s, P.Work(i, w, x))
    ensures var s' := PipeApply(s, P.Work(i, w, x));
      Sized(s') && |s'.jobs| == |s.jobs| && s'.p.calls == s.p.calls && s'.p.shuts == s.p.shuts && s'.w == s.w &&
          s'.db == s.db && s'.shelf == s.shelf
  {
    WorkSizes(s.p, i, w, x);
  }

  lemma ReceiveJob(f: Facts, s: Sys, i: nat, w: nat)
    requires Inv(f, s) && PipeEnabled(s, P.Work(i, w, P.Receive))
    ensures var s', j := PipeApply(s, P.Work(i, w, P.Receive)), s.p.stages[i].buf[0];
      Sized(s') && |s'.jobs| == |s.jobs| && j < |s.jobs| && JobInv(f, s', j)
  {
    var s', j := PipeApply(s, P.Work(i, w, P.Receive)), s.p.stages[i].buf[0];
    PipeWorkSized(s, i, w, P.Receive);
    ReceiveMoves(s.p, i, w);
    assert JobInv(f, s, j);
    var v := ViewOf(s, j);
    ReceiveView(f, v, i, w);
    assert ViewOf(s', j) == v.(place := P.With(i, w), busy := true, st := v.st.(stage := In(i)));
  }

  lemma ReturnJob(f: Facts, s: Sys, i: nat, w: nat, x: P.WorkStep)
    requires Inv(f, s) && PipeEnabled(s, P.Work(i, w, x)) && (x.Fail? || x.Succeed?)
    ensures var s', j := PipeApply(s, P.Work(i, w, x)), s.p.stages[i].workers[w].job;
      Sized(s') && |s'.jobs| == |s.jobs| && j < |s.jobs| && JobInv(f, s', j)
  {
    var s', j := PipeApply(s, P.Work(i, w, x)), s.p.stages[i].workers[w].job;
    PipeWorkSized(s, i, w, x);
    ReturnMoves(s.p, i, w, x);
    assert JobInv(f, s, j);
    var v := ViewOf(s, j);
    ReturnView(f, v, s'.p.jobs[j].place);
    assert ViewOf(s', j) == v.(place := s'.p.jobs[j].place, busy := false, st := v.st.(stage := Out));
  }

  lemma SendJob(f: Facts, s: Sys, i: nat, w: nat, x: P.WorkStep)
    requires Inv(f, s) && PipeEnabled(s, P.Work(i, w, x)) && (x.Send? || x.Drop?)
    ensures var s', j := PipeApply(s, P.Work(i, w, x)), s.p.stages[i].workers[w].job;
      Sized(s') && |s'.jobs| == |s.jobs| && j < |s.jobs| && JobInv(f, s', j)
  {
    var s', j := PipeApply(s, P.Work(i, w, x)), s.p.stages[i].workers[w].job;
    PipeWorkSized(s, i, w, x);
    SendMoves(s.p, i, w, x);
    assert JobInv(f, s, j);
    var v := ViewOf(s, j);
    SendView(f, v, s'.p.jobs[j].place);
    assert ViewOf(s', j) == v.(place := s'.p.jobs[j].place);
  }

  lemma PipeWorkJob(f: Facts, s: Sys, i: nat, w: nat, x: P.WorkStep, j: nat)
    requires Inv(f, s) && PipeEnabled(s, P.Work(i, w, x)) && j < |s.jobs|
    ensures var s' := PipeApply(s, P.Work(i, w, x)); Sized(s') && |s'.jobs| == |s.jobs| && JobInv(f, s', j)
  {
    var s' := PipeApply(s, P.Work(i, w, x));
    if j == Actor(s.p, i, w, x) {
      match x
      case Receive => ReceiveJob(f, s, i, w);
      case Fail => ReturnJob(f, s, i, w, x);
      case Succeed => ReturnJob(f, s, i, w, x);
      case Send => SendJob(f, s, i, w, x);
      case Drop => SendJob(f, s, i, w, x);
    } else {
      PipeWorkSized(s, i, w, x);
      WorkOthers(s.p, i, w, x, j);
      assert JobInv(f, s, j);
      SameView(f, s, s', j);
    }
  }

  lemma PipeQuietJob(f: Facts, s: Sys, a: P.Action, j: nat)
    requires Inv(f, s) && PipeEnabled(s, a) && j < |s.jobs| && (a.Start? || a.Shut? || a.CloseOut?)
    ensures var s' := PipeApply(s, a); Sized(s') && |s'.jobs| == |s.jobs| && JobInv(f, s', j)
  {
    QuietMoves(s.p, a, j);
    assert JobInv(f, s, j);
    SameView(f, s, PipeApply(s, a), j);
  }

  lemma PipeJob(f: Facts, s: Sys, a: P.Action, j: nat)
    requires Inv(f, s) && PipeEnabled(s, a) && j < |s.jobs|
    ensures var s' := PipeApply(s, a); Sized(s') && |s'.jobs| == |s.jobs| && JobInv(f, s', j)
  {
    match a
    case Call(k, x) => PipeCallJob(f, s, k, x, j);
    case Work(i, w, x) => PipeWorkJob(f, s, i, w, x, j);
    case _ => PipeQuietJob(f, s, a, j);
  }
}
