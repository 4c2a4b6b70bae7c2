/** judgeWithAssist as it runs: the assistant and the judge in two goroutines over shared variables, under
    any schedule. */
module Goroutines {
  import opened Extract
  import opened Jev
  import opened Invoice

  // The shared variables and how far each goroutine has got.
  datatype Fork = Fork(assistPc: nat, judgePc: nat, row: Row, parsed: Result, judgment: Judgment, failed: bool)

  datatype Who = Assisting | Judging

  const ASSIST_STEPS := 4
  const JUDGE_STEPS := 2

  // One assignment of applyAssist at a time, `parsed` last.
  function AssistStep(s: Fork, a: Assistant): Fork
    requires s.assistPc < ASSIST_STEPS
  {
    var row := s.row;
    var s' := s.(assistPc := s.assistPc + 1);
    match a
    case NoAssistant => s'
    case AssistErrs(model, notes) =>
      if s.assistPc == 0 then s'.(row := row.(assistModel := model))
      else if s.assistPc == 1 then s'.(row := row.(assistNotes := notes))
      else if s.assistPc == 2 then s'.(row := row.(assistUsed := false))
      else s'
    case Assists(model, notes, improved) =>
      if s.assistPc == 0 then s'.(row := row.(assistModel := model))
      else if s.assistPc == 1 then s'.(row := row.(assistUsed := true))
      else if s.assistPc == 2 then s'.(row := row.(assistNotes := notes))
      else s'.(parsed := if improved.items != [] then improved else s.parsed)
  }

  // The judge is asked about `hint`, the extract from before the fork, and then judgment and jerr are set.
  function JudgeStep(s: Fork, hint: Result, first: Option<Answers>): Fork
    requires s.judgePc < JUDGE_STEPS
  {
    var s' := s.(judgePc := s.judgePc + 1);
    if s.judgePc == 0 then s'.(judgment := match first { case Some(x) => Compose(hint, x) case None => NO_JUDGMENT })
    else s'.(failed := first.None?)
  }

  // A goroutine that has finished takes no more steps.
  function Step(s: Fork, who: Who, hint: Result, a: Assistant, first: Option<Answers>): Fork {
    match who
    case Assisting => if s.assistPc < ASSIST_STEPS then AssistStep(s, a) else s
    case Judging => if s.judgePc < JUDGE_STEPS then JudgeStep(s, hint, first) else s
  }

  function Steps(s: Fork, schedule: seq<Who>, hint: Result, a: Assistant, first: Option<Answers>): Fork {
    if schedule == [] then s
    else Step(Steps(s, schedule[..|schedule| - 1], hint, a, first), schedule[|schedule| - 1], hint, a, first)
  }

  function Begin(r: Row, hint: Result): Fork {
    Fork(0, 0, r, hint, NO_JUDGMENT, false)
  }

  predicate Joined(s: Fork) {
    s.assistPc == ASSIST_STEPS && s.judgePc == JUDGE_STEPS
  }

  // After wg.Wait: the second evaluation, if the extract changed.
  function Finish(s: Fork, hint: Result, judge: Judge): Judged
    requires judge.Judge?
  {
    Judged(s.row, s.parsed,
           if ExtractChangedSpec(hint, s.parsed) then JudgmentOf(s.parsed, judge.again)
           else if s.failed then None
           else Some(s.judgment))
  }

  // What one goroutine alone has done after so many of its steps.
  function AssistAlone(r: Row, hint: Result, a: Assistant, steps: nat): (s: Fork)
    requires steps <= ASSIST_STEPS
    ensures s.assistPc == steps
  {
    if steps == 0 then Begin(r, hint) else AssistStep(AssistAlone(r, hint, a, steps - 1), a)
  }

  function JudgeAlone(r: Row, hint: Result, first: Option<Answers>, steps: nat): (s: Fork)
    requires steps <= JUDGE_STEPS
    ensures s.judgePc == steps
  {
    if steps == 0 then Begin(r, hint) else JudgeStep(JudgeAlone(r, hint, first, steps - 1), hint, first)
  }

  // The variables of each goroutine are as if it ran alone.
  predicate Separate(s: Fork, r: Row, hint: Result, a: Assistant, first: Option<Answers>) {
    && s.assistPc <= ASSIST_STEPS && s.judgePc <= JUDGE_STEPS
    && s.row == AssistAlone(r, hint, a, s.assistPc).row
    && s.parsed == AssistAlone(r, hint, a, s.assistPc).parsed
    && s.judgment == JudgeAlone(r, hint, first, s.judgePc).judgment
    && s.failed == JudgeAlone(r, hint, first, s.judgePc).failed
  }

  lemma AssistSeparate(s: Fork, r: Row, hint: Result, a: Assistant, first: Option<Answers>)
    requires Separate(s, r, hint, a, first) && s.assistPc < ASSIST_STEPS
    ensures Separate(AssistStep(s, a), r, hint, a, first)
  {
    var alone := AssistAlone(r, hint, a, s.assistPc);
    assert AssistAlone(r, hint, a, s.assistPc + 1) == AssistStep(alone, a);
    assert AssistStep(s, a).row == AssistStep(alone, a).row && AssistStep(s, a).parsed == AssistStep(alone, a).parsed;
  }

  lemma JudgeSeparate(s: Fork, r: Row, hint: Result, a: Assistant, first: Option<Answers>)
    requires Separate(s, r, hint, a, first) && s.judgePc < JUDGE_STEPS
    ensures Separate(JudgeStep(s, hint, first), r, hint, a, first)
  {
    var alone := JudgeAlone(r, hint, first, s.judgePc);
    assert JudgeAlone(r, hint, first, s.judgePc + 1) == JudgeStep(alone, hint, first);
  }

  lemma {:induction false} AlwaysSeparate(r: Row, hint: Result, a: Assistant, first: Option<Answers>,
      schedule: seq<Who>)
    ensures Separate(Steps(Begin(r, hint), schedule, hint, a, first), r, hint, a, first)
  {
    if schedule != [] {
      AlwaysSeparate(r, hint, a, first, schedule[..|schedule| - 1]);
      var s := Steps(Begin(r, hint), schedule[..|schedule| - 1], hint, a, first);
      if schedule[|schedule| - 1].Assisting? {
        if s.assistPc < ASSIST_STEPS { AssistSeparate(s, r, hint, a, first); }
      } else {
        if s.judgePc < JUDGE_STEPS { JudgeSeparate(s, r, hint, a, first); }
      }
    }
  }

  /** Every interleaving of the two goroutines that lets both finish gives the result of running the
      assistant and then the judge in sequence. */
  lemma AnyScheduleIsSequential(r: Row, hint: Result, a: Assistant, judge: Judge, schedule: seq<Who>)
    requires judge.Judge? && !a.NoAssistant? && IncompleteSpec(hint)
    requires Joined(Steps(Begin(r, hint), schedule, hint, a, judge.first))
    ensures Finish(Steps(Begin(r, hint), schedule, hint, a, judge.first), hint, judge) ==
        JudgeWithAssist(r, hint, a, judge)
  {
    AlwaysSeparate(r, hint, a, judge.first, schedule);
    AssistDone(r, hint, a);
    JudgeDone(r, hint, judge.first);
  }

  lemma AssistDone(r: Row, hint: Result, a: Assistant)
    ensures var s := AssistAlone(r, hint, a, ASSIST_STEPS);
      s.row == AssistRow(r, a) && s.parsed == AssistExtract(hint, a)
  {
    var s0 := AssistAlone(r, hint, a, 0);
    var s1 := AssistStep(s0, a);
    var s2 := AssistStep(s1, a);
    var s3 := AssistStep(s2, a);
    assert AssistAlone(r, hint, a, 1) == s1;
    assert AssistAlone(r, hint, a, 2) == s2;
    assert AssistAlone(r, hint, a, 3) == s3;
    assert AssistAlone(r, hint, a, 4) == AssistStep(s3, a);
  }

  lemma JudgeDone(r: Row, hint: Result, first: Option<Answers>)
    ensures var s := JudgeAlone(r, hint, first, JUDGE_STEPS);
      s.failed == first.None? && (first.Some? ==> s.judgment == Compose(hint, first.value))
  {
    var s1 := JudgeStep(JudgeAlone(r, hint, first, 0), hint, first);
    assert JudgeAlone(r, hint, first, 1) == s1;
    assert JudgeAlone(r, hint, first, 2) == JudgeStep(s1, hint, first);
  }

  /** Some schedule does let both finish, from any point. */
  lemma {:induction false} CanJoin(s: Fork, hint: Result, a: Assistant, first: Option<Answers>)
    returns (schedule: seq<Who>)
    requires s.assistPc <= ASSIST_STEPS && s.judgePc <= JUDGE_STEPS
    ensures Joined(Steps(s, schedule, hint, a, first))
    decreases ASSIST_STEPS - s.assistPc + JUDGE_STEPS - s.judgePc
  {
    if Joined(s) {
      schedule := [];
    } else {
      var who := if s.assistPc < ASSIST_STEPS then Assisting else Judging;
      var rest := CanJoin(Step(s, who, hint, a, first), hint, a, first);
      schedule := [who] + rest;
      StepsCons(s, who, rest, hint, a, first);
    }
  }

  lemma {:induction false} StepsCons(s: Fork, who: Who, rest: seq<Who>, hint: Result, a: Assistant,
      first: Option<Answers>)
    ensures Steps(s, [who] + rest, hint, a, first) == Steps(Step(s, who, hint, a, first), rest, hint, a, first)
  {
    var all := [who] + rest;
    if rest == [] {
      assert all[..|all| - 1] == [];
    } else {
      StepsCons(s, who, rest[..|rest| - 1], hint, a, first);
      assert all[..|all| - 1] == [who] + rest[..|rest| - 1];
    }
  }
}
