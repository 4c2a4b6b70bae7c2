/** internal/jev: composing a verdict from the model's answers, and explaining a stored verdict later. */
module Jev {
  import opened Extract
  import Money

  const NOUL_THRESHOLD := 0.5
  const CONFIDENCE_FLOOR := 0.6
  const TOTAL_DELTA := 0.05

  // A decoded JSON value, and the answers as they come back: any value may be missing or of another type.
  datatype Any = Text(text: string) | Number(number: real) | Object(fields: map<string, Any>) | Other

  type Answer = map<string, Any>
  type Answers = map<string, Answer>

  datatype Judgment = Judgment(
    documentType: string, documentTypeConf: real,
    suggestedRouting: string, routingConfidence: real, effectiveRouting: string,
    amountsSupported: real, itemsQtySupported: real, totalConsistent: real,
    riskScore: real, riskLabel: string, riskConfidence: real,
    needsReview: bool, itemsConfirmed: bool)

  const NO_JUDGMENT := Judgment("", 0.0, "", 0.0, "", 0.0, 0.0, 0.0, 0.0, "", 0.0, false, false)

  function AnswerTo(answers: Answers, question: string): Answer {
    if question in answers then answers[question] else map[]
  }

  function TextOf(ans: Answer, key: string): string {
    if key in ans && ans[key].Text? then ans[key].text else ""
  }

  function NumberOf(ans: Answer, key: string): real {
    if key in ans && ans[key].Number? then ans[key].number else 0.0
  }

  // What an answer says under a key; a value that is missing or of another type says nothing.
  predicate NumberSaid(ans: Answer, key: string, v: real) {
    if key in ans && ans[key].Number? then ans[key] == Number(v) else v == 0.0
  }

  predicate TextSaid(ans: Answer, key: string, v: string) {
    if key in ans && ans[key].Text? then ans[key] == Text(v) else v == ""
  }

  // The answer to a question, or an empty one.
  predicate Answered(answers: Answers, question: string, ans: Answer) {
    if question in answers then ans == answers[question] else ans == map[]
  }

  // The switch at the end of scoreOf.
  function RiskLabel(score: real): string {
    if score < 0.75 then "low" else if score < 1.5 then "medium" else "high"
  }

  // int(v) truncates towards zero; %d.
  function Truncate(v: real): int {
    if v >= 0.0 then v.Floor else -(-v).Floor
  }

  function Itoa(n: int): string {
    if n < 0 then "-" + Money.Decimal(-n) else Money.Decimal(n)
  }

  /** scoreOf: whatever the legend says, the label is a function of the score. */
  method ScoreOf(ans: Answer) returns (score: real, conf: real, name: string)
    ensures NumberSaid(ans, "score", score) && NumberSaid(ans, "confidence", conf)
    ensures name == if score < 0.75 then "low" else if score < 1.5 then "medium" else "high"
  {
    score := NumberOf(ans, "score");
    conf := NumberOf(ans, "confidence");
    name := "medium";
    if "legend" in ans && ans["legend"].Object? {
      var legend := ans["legend"].fields;
      var key := Itoa(Truncate(score + 0.5));
      if key in legend && legend[key].Text? && legend[key].text != "" {
        name := legend[key].text;
      }
    }
    if score < 0.75 {
      name := "low";
    } else if score < 1.5 {
      name := "medium";
    } else {
      name := "high";
    }
  }

  predicate TotalsApart(estimated: real, computed: real) {
    Abs(estimated - computed) > TOTAL_DELTA
  }

  function Compose(extracted: Result, answers: Answers): Judgment {
    var doc, routing := AnswerTo(answers, "document_type"), AnswerTo(answers, "routing");
    var docConf, routeConf := NumberOf(doc, "confidence"), NumberOf(routing, "confidence");
    var amounts := NumberOf(AnswerTo(answers, "amounts_supported"), "noul");
    var itemsQty := NumberOf(AnswerTo(answers, "items_qty_supported"), "noul");
    var totalOk := NumberOf(AnswerTo(answers, "total_consistent"), "noul");
    var risk := AnswerTo(answers, "risk");
    var score, riskConf := NumberOf(risk, "score"), NumberOf(risk, "confidence");
    var needsReview :=
      amounts < NOUL_THRESHOLD || itemsQty < NOUL_THRESHOLD || totalOk < NOUL_THRESHOLD ||
      docConf < CONFIDENCE_FLOOR || routeConf < CONFIDENCE_FLOOR || riskConf < CONFIDENCE_FLOOR ||
      TotalsApart(extracted.estimatedTotal, extracted.computedItemsTotal);
    var suggested := TextOf(routing, "choice");
    Judgment(TextOf(doc, "choice"), docConf, suggested, routeConf,
             if suggested == "other" || routeConf < CONFIDENCE_FLOOR then "review" else suggested,
             amounts, itemsQty, totalOk, score, RiskLabel(score), riskConf, needsReview, !needsReview)
  }

  /** What a verdict composed from an extract promises about the extract, for any answers. */
  lemma VerdictPromises(extracted: Result, answers: Answers)
    ensures var v := Compose(extracted, answers);
      && v.itemsConfirmed == !v.needsReview
      && (v.itemsConfirmed ==> Abs(extracted.estimatedTotal - extracted.computedItemsTotal) <= TOTAL_DELTA)
      && v.effectiveRouting != "other"
      && (v.effectiveRouting != v.suggestedRouting ==> v.effectiveRouting == "review")
  {
  }

  /** The verdict records each answer as it came, labels the risk by its score, routes to review exactly where
      the routing is other or uncertain, and needs review exactly when one of the answers is below its bar or
      the totals are apart. */
  lemma VerdictRecords(extracted: Result, answers: Answers, doc: Answer, routing: Answer, risk: Answer)
    requires Answered(answers, "document_type", doc) && Answered(answers, "routing", routing)
    requires Answered(answers, "risk", risk)
    ensures var v := Compose(extracted, answers);
      && TextSaid(doc, "choice", v.documentType) && NumberSaid(doc, "confidence", v.documentTypeConf)
      && TextSaid(routing, "choice", v.suggestedRouting) && NumberSaid(routing, "confidence", v.routingConfidence)
      && NumberSaid(risk, "score", v.riskScore) && NumberSaid(risk, "confidence", v.riskConfidence)
      && v.riskLabel == (if v.riskScore < 0.75 then "low" else if v.riskScore < 1.5 then "medium" else "high")
      && v.effectiveRouting ==
         if v.suggestedRouting == "other" || v.routingConfidence < 0.6 then "review" else v.suggestedRouting
    ensures var v := Compose(extracted, answers);
      && (forall ans :: Answered(answers, "amounts_supported", ans) ==> NumberSaid(ans, "noul", v.amountsSupported))
      && (forall ans :: Answered(answers, "items_qty_supported", ans) ==> NumberSaid(ans, "noul", v.itemsQtySupported))
      && (forall ans :: Answered(answers, "total_consistent", ans) ==> NumberSaid(ans, "noul", v.totalConsistent))
    ensures var v := Compose(extracted, answers);
      !v.needsReview <==>
        v.amountsSupported >= 0.5 && v.itemsQtySupported >= 0.5 && v.totalConsistent >= 0.5 &&
        v.documentTypeConf >= 0.6 && v.routingConfidence >= 0.6 && v.riskConfidence >= 0.6 &&
        Abs(extracted.estimatedTotal - extracted.computedItemsTotal) <= 0.05
  {
  }

  /** Only the totals of the extract enter the verdict. */
  lemma VerdictReadsTotals(a: Result, b: Result, answers: Answers)
    requires a.estimatedTotal == b.estimatedTotal && a.computedItemsTotal == b.computedItemsTotal
    ensures Compose(a, answers) == Compose(b, answers)
  {
  }

  // Explain.

  datatype Kind = Choice | Noul | Score

  // One persisted judgment: its noul or its confidence, and the bar it has to reach.
  datatype Question = Question(id: string, kind: Kind, value: real, threshold: real, triggered: bool)

  datatype Verdict = Verdict(needsReview: bool, itemsConfirmed: bool, effectiveRouting: string,
      suggestedRouting: string)

  datatype Analysis = Analysis(verdict: Verdict, questions: seq<Question>, mismatch: bool, determinants: seq<string>)

  function LocalizeRouting(v: string): string {
    if v == "fiscal" then "setor fiscal"
    else if v == "accounts_payable" then "contas a pagar"
    else if v == "review" then "revisão"
    else if v == "other" then "outro"
    else v
  }

  function ChoiceQuestion(id: string, conf: real): Question {
    Question(id, Choice, conf, CONFIDENCE_FLOOR, conf < CONFIDENCE_FLOOR)
  }

  function NoulQuestion(id: string, noul: real): Question {
    Question(id, Noul, noul, NOUL_THRESHOLD, noul < NOUL_THRESHOLD)
  }

  function ScoreQuestion(id: string, conf: real): Question {
    Question(id, Score, conf, CONFIDENCE_FLOOR, conf < CONFIDENCE_FLOOR)
  }

  function Questions(v: Judgment): seq<Question> {
    [ ChoiceQuestion("document_type", v.documentTypeConf),
      ChoiceQuestion("routing", v.routingConfidence),
      NoulQuestion("amounts_supported", v.amountsSupported),
      NoulQuestion("items_qty_supported", v.itemsQtySupported),
      NoulQuestion("total_consistent", v.totalConsistent),
      ScoreQuestion("risk", v.riskConfidence) ]
  }

  method HasFactor(factors: seq<string>, id: string) returns (found: bool)
    ensures found <==> id in factors
  {
    for i := 0 to |factors|
      invariant id !in factors[..i]
    {
      if factors[i] == id {
        return true;
      }
    }
    return false;
  }

  // The rules that fired, by id, in the order they are checked.
  function Fired(qs: seq<Question>): seq<string> {
    if qs == [] then []
    else Fired(qs[..|qs| - 1]) + if qs[|qs| - 1].triggered then [qs[|qs| - 1].id] else []
  }

  function ExplainSpec(v: Judgment, estimated: real, computed: real): Analysis {
    var qs, mismatch := Questions(v), TotalsApart(estimated, computed);
    var fired := Fired(qs) + if mismatch then ["item_total_mismatch"] else [];
    var unrouted := v.suggestedRouting == "other" || v.routingConfidence < CONFIDENCE_FLOOR;
    Analysis(Verdict(v.needsReview, v.itemsConfirmed, LocalizeRouting(v.effectiveRouting),
        LocalizeRouting(v.suggestedRouting)),
             qs, mismatch,
             fired + if unrouted && "routing" !in fired then ["effective_routing"] else [])
  }

  method Explain(v: Judgment, estimated: real, computed: real) returns (a: Analysis)
    ensures a == ExplainSpec(v, estimated, computed)
  {
    var qs := Questions(v);
    var mismatch := Abs(estimated - computed) > TOTAL_DELTA;
    var determinants: seq<string> := [];
    for i := 0 to |qs|
      invariant determinants == Fired(qs[..i])
    {
      assert qs[..i + 1][..i] == qs[..i];
      if !qs[i].triggered {
        continue;
      }
      determinants := determinants + [qs[i].id];
    }
    assert qs[..|qs|] == qs;
    if mismatch {
      determinants := determinants + ["item_total_mismatch"];
    }
    if v.suggestedRouting == "other" || v.routingConfidence < CONFIDENCE_FLOOR {
      var known := HasFactor(determinants, "routing");
      if !known {
        determinants := determinants + ["effective_routing"];
      }
    }
    a := Analysis(
      Verdict(v.needsReview, v.itemsConfirmed, LocalizeRouting(v.effectiveRouting),
          LocalizeRouting(v.suggestedRouting)),
      qs, mismatch, determinants);
  }
}
