/** The store refines a plain sequential database: each step of the concurrent store is one operation
    executed on a table, one call returning, or nothing at all. */
module StoreRefinement {
  import opened Store
  import opened StoreSafety

  datatype Op<Row> = Create(id: nat, row: Row) | Save(id: nat, row: Row) | Delete(id: nat)

  type Table<Row> = map<nat, Row>

  // The table may refuse anything (a dead context, a full disk); it always refuses a duplicate key.
  predicate Allowed<Row>(db: Table<Row>, op: Op<Row>, ok: bool) {
    ok && op.Create? ==> op.id !in db
  }

  function Effect<Row>(db: Table<Row>, op: Op<Row>, ok: bool): Table<Row> {
    if !ok then db
    else
      match op
      case Create(id, row) => db[id := row]
      case Save(id, row) => db[id := row]
      case Delete(id) => db - {id}
  }

  /** The table after the operations of `log`, one after the other. */
  function Replay<Row>(db: Table<Row>, ops: seq<Op<Row>>, log: seq<Executed>): Table<Row>
    requires forall p :: 0 <= p < |log| ==> log[p].call < |ops|
  {
    if log == [] then db
    else
      var last := log[|log| - 1];
      Effect(Replay(db, ops, log[..|log| - 1]), ops[last.call], last.ok)
  }

  // The concurrent store with its database; `ops[c]` is what the closure of call c does.
  datatype Conc<Row> = Conc(s: State, db: Table<Row>)

  ghost predicate ConcStep<Row>(ops: seq<Op<Row>>, x: Conc<Row>, x': Conc<Row>, a: Action) {
    && Enabled(x.s, a) && x'.s == Apply(x.s, a)
    && if a.Write? && a.write.Run? then
         && x.s.writer.call < |ops|
         && Allowed(x.db, ops[x.s.writer.call], a.write.ok)
         && x'.db == Effect(x.db, ops[x.s.writer.call], a.write.ok)
       else x'.db == x.db
  }

  // The sequential database: a table, what each operation returned, and what each call has been told.
  datatype Answer = Silent | Told(result: Result)

  datatype Spec<Row> = Spec(db: Table<Row>, ran: seq<seq<bool>>, told: seq<Answer>)

  ghost predicate SpecRun<Row>(ops: seq<Op<Row>>, t: Spec<Row>, t': Spec<Row>, c: nat, ok: bool) {
    && c < |ops| == |t.ran| == |t.told|
    && t.ran[c] == [] && (t.told[c] == Silent || t.told[c] == Told(CtxLate))
    && Allowed(t.db, ops[c], ok)
    && t' == Spec(Effect(t.db, ops[c], ok), t.ran[c := [ok]], t.told)
  }

  ghost predicate SpecTell<Row>(t: Spec<Row>, t': Spec<Row>, c: nat, r: Result) {
    && c < |t.ran| == |t.told|
    && t.told[c] == Silent
    && (match r
        case Own(ok) => t.ran[c] == [ok]
        case CtxLate => true
        case _ => t.ran[c] == [])
    && t' == t.(told := t.told[c := Told(r)])
  }

  ghost predicate SpecStep<Row>(ops: seq<Op<Row>>, t: Spec<Row>, t': Spec<Row>) {
    || (exists c: nat, ok :: SpecRun(ops, t, t', c, ok))
    || (exists c: nat, r :: SpecTell(t, t', c, r))
  }

  function ToldBy(pc: CallPc): Answer {
    if pc.Returned? then Told(pc.result) else Silent
  }

  function Abs<Row>(x: Conc<Row>): Spec<Row> {
    Spec(x.db, x.s.ran, seq(|x.s.calls|, c requires 0 <= c < |x.s.calls| => ToldBy(x.s.calls[c])))
  }

  lemma CallRefines<Row>(ops: seq<Op<Row>>, x: Conc<Row>, x': Conc<Row>, c: nat, step: CallStep)
    requires Inv(x.s) && |ops| == |x.s.calls| && ConcStep(ops, x, x', Call(c, step))
    ensures Abs(x') == Abs(x) || SpecStep(ops, Abs(x), Abs(x'))
  {
    assert CallOk(x.s, c);
    CallControl(x.s, c, step);
    var pc' := x'.s.calls[c];
    if pc'.Returned? {
      assert Abs(x').told == Abs(x).told[c := Told(pc'.result)];
      assert SpecTell(Abs(x), Abs(x'), c, pc'.result);
    } else {
      assert Abs(x').told == Abs(x).told;
    }
  }

  lemma RunRefines<Row>(ops: seq<Op<Row>>, x: Conc<Row>, x': Conc<Row>, ok: bool)
    requires Inv(x.s) && |ops| == |x.s.calls| && ConcStep(ops, x, x', Write(Run(ok)))
    ensures SpecStep(ops, Abs(x), Abs(x'))
  {
    var c := x.s.writer.call;
    assert CallOk(x.s, c);
    assert Abs(x').told == Abs(x).told;
    assert x.s.ran[c] + [ok] == [ok];
    assert SpecRun(ops, Abs(x), Abs(x'), c, ok);
  }

  /** Each step of the store is a step of the sequential database or leaves it as it is. */
  lemma Refines<Row>(ops: seq<Op<Row>>, x: Conc<Row>, x': Conc<Row>, a: Action)
    requires Inv(x.s) && |ops| == |x.s.calls| && ConcStep(ops, x, x', a)
    ensures Abs(x') == Abs(x) || SpecStep(ops, Abs(x), Abs(x'))
  {
    match a
    case Call(c, step) => CallRefines(ops, x, x', c, step);
    case Close(d, step) => CloseControl(x.s, d, step); assert Abs(x').told == Abs(x).told;
    case Write(step) =>
      if step.Run? { RunRefines(ops, x, x', step.ok); } else { assert Abs(x').told == Abs(x).told; }
  }

  lemma SameCalls(s: State, a: Action)
    requires Inv(s) && Enabled(s, a)
    ensures |Apply(s, a).calls| == |s.calls|
    ensures a.Write? && a.write.Run? ==> Apply(s, a).log == s.log + [Executed(s.writer.call, a.write.ok)]
    ensures !(a.Write? && a.write.Run?) ==> Apply(s, a).log == s.log
  {
    match a
    case Call(c, x) => assert CallOk(s, c);
    case Close(_, _) =>
    case Write(_) =>
  }

  // What holds along a run that started with table `db`.
  ghost predicate RunOk<Row>(ops: seq<Op<Row>>, db: Table<Row>, x: Conc<Row>) {
    && Inv(x.s) && |x.s.calls| == |ops|
    && (forall p :: 0 <= p < |x.s.log| ==> x.s.log[p].call < |ops|)
    && x.db == Replay(db, ops, x.s.log)
  }

  lemma RunOkStep<Row>(ops: seq<Op<Row>>, db: Table<Row>, x: Conc<Row>, x': Conc<Row>, a: Action)
    requires RunOk(ops, db, x) && ConcStep(ops, x, x', a)
    ensures RunOk(ops, db, x')
  {
    InvStep(x.s, a);
    SameCalls(x.s, a);
    if a.Write? && a.write.Run? { assert x'.s.log[..|x'.s.log| - 1] == x.s.log; }
  }

  // A run of the store and its database, with the states it goes through.
  ghost predicate ConcRun<Row>(ops: seq<Op<Row>>, xs: seq<Conc<Row>>, run: seq<Action>) {
    && |xs| == |run| + 1
    && (forall n {:trigger run[n]} :: 0 <= n < |run| ==> ConcStep(ops, xs[n], xs[n + 1], run[n]))
  }

  lemma {:induction false} RunOkAt<Row>(ops: seq<Op<Row>>, closers: nat, xs: seq<Conc<Row>>, run: seq<Action>, n: nat)
    requires ConcRun(ops, xs, run) && xs[0].s == Init(|ops|, closers) && n <= |run|
    ensures RunOk(ops, xs[0].db, xs[n])
  {
    if n == 0 {
      InitInv(|ops|, closers);
    } else {
      RunOkAt(ops, closers, xs, run, n - 1);
      RunOkStep(ops, xs[0].db, xs[n - 1], xs[n], run[n - 1]);
    }
  }

  /** Over any run the database is what replaying the log on the initial table gives, and the abstraction
      makes only steps of the sequential database. */
  lemma RunRefinesSequential<Row>(ops: seq<Op<Row>>, closers: nat, xs: seq<Conc<Row>>, run: seq<Action>)
    requires ConcRun(ops, xs, run) && xs[0].s == Init(|ops|, closers)
    ensures forall n :: 0 <= n < |xs| ==> RunOk(ops, xs[0].db, xs[n])
    ensures forall n :: 0 <= n < |run| ==> Abs(xs[n + 1]) == Abs(xs[n]) || SpecStep(ops, Abs(xs[n]), Abs(xs[n + 1]))
  {
    forall n | 0 <= n < |xs| ensures RunOk(ops, xs[0].db, xs[n]) { RunOkAt(ops, closers, xs, run, n); }
    forall n | 0 <= n < |run|
      ensures Abs(xs[n + 1]) == Abs(xs[n]) || SpecStep(ops, Abs(xs[n]), Abs(xs[n + 1]))
    {
      assert RunOk(ops, xs[0].db, xs[n]) && ConcStep(ops, xs[n], xs[n + 1], run[n]);
      Refines(ops, xs[n], xs[n + 1], run[n]);
    }
  }
}
