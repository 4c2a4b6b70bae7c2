/** Explain, read from the stored row alone, agrees with the verdict that was composed for it. */
module ExplainTheorems {
  import opened Extract
  import opened Jev

  // The ids in the order of the questions, and when each is listed.
  const IDS := ["document_type", "routing", "amounts_supported", "items_qty_supported", "total_consistent", "risk"]

  // A stored verdict is the one composed for an extract with these totals.
  ghost predicate Composed(v: Judgment, estimated: real, computed: real) {
    exists r: Result, answers: Answers ::
      r.estimatedTotal == estimated && r.computedItemsTotal == computed && v == Compose(r, answers)
  }

  lemma {:induction false} FiredAre(qs: seq<Question>, id: string)
    ensures id in Fired(qs) <==> exists k :: 0 <= k < |qs| && qs[k].triggered && qs[k].id == id
  {
    if qs != [] { FiredAre(qs[..|qs| - 1], id); }
  }

  predicate Distinct(ids: seq<string>) {
    forall a, b :: 0 <= a < b < |ids| ==> ids[a] != ids[b]
  }

  lemma {:induction false} FiredDistinct(qs: seq<Question>)
    requires forall a, b :: 0 <= a < b < |qs| ==> qs[a].id != qs[b].id
    ensures Distinct(Fired(qs))
  {
    if qs != [] {
      var front, last := qs[..|qs| - 1], qs[|qs| - 1];
      FiredDistinct(front);
      FiredAre(front, last.id);
    }
  }

  lemma QuestionIds(v: Judgment)
    ensures |Questions(v)| == 6 && forall k :: 0 <= k < 6 ==> Questions(v)[k].id == IDS[k]
    ensures Distinct(IDS) && "item_total_mismatch" !in IDS && "effective_routing" !in IDS
    ensures "item_total_mismatch" != "effective_routing" && "routing" in IDS
  {
    assert |IDS[0]| == 13 && |IDS[1]| == 7 && |IDS[2]| == 17 && |IDS[3]| == 19 && |IDS[4]| == 16 && |IDS[5]| == 4;
    assert IDS[3][4] == 's' && "item_total_mismatch"[4] == '_';
    assert IDS[2][0] == 'a' && "effective_routing"[0] == 'e';
    assert IDS[1] == "routing";
  }

  lemma FiredIds(v: Judgment)
    ensures var fired := Fired(Questions(v));
      && Distinct(fired)
      && (forall id :: id in fired ==> id in IDS)
      && ("routing" in fired <==> v.routingConfidence < CONFIDENCE_FLOOR)
  {
    QuestionIds(v);
    var qs := Questions(v);
    FiredDistinct(qs);
    forall id
      ensures id in Fired(qs) <==> exists k :: 0 <= k < |qs| && qs[k].triggered && qs[k].id == id
    {
      FiredAre(qs, id);
    }
    assert qs[1].id == "routing";
  }

  /** No rule is listed twice. */
  lemma DeterminantsDistinct(v: Judgment, estimated: real, computed: real)
    ensures Distinct(ExplainSpec(v, estimated, computed).determinants)
  {
    QuestionIds(v);
    FiredIds(v);
  }

  lemma {:induction false} FiredSome(qs: seq<Question>)
    ensures Fired(qs) != [] <==> exists k :: 0 <= k < |qs| && qs[k].triggered
  {
    if qs != [] { FiredSome(qs[..|qs| - 1]); }
  }

  lemma ListedBeside(fired: seq<string>, mismatch: bool, unrouted: bool)
    requires "effective_routing" !in fired && "item_total_mismatch" != "effective_routing"
    ensures var ds := fired + (if mismatch then ["item_total_mismatch"] else []) +
        (if unrouted then ["effective_routing"] else []);
      (exists id :: id in ds && id != "effective_routing") <==> fired != [] || mismatch
  {
    var ds := fired + (if mismatch then ["item_total_mismatch"] else []) +
        (if unrouted then ["effective_routing"] else []);
    if fired != [] { assert fired[0] in ds; }
    if mismatch { assert "item_total_mismatch" in ds; }
  }

  /** On a row whose verdict was composed for its totals, the row needs review exactly when some
      determinant other than effective_routing is listed. */
  lemma ReviewIsExplained(v: Judgment, estimated: real, computed: real)
    requires Composed(v, estimated, computed)
    ensures v.needsReview <==>
        exists id :: id in ExplainSpec(v, estimated, computed).determinants && id != "effective_routing"
  {
    QuestionIds(v);
    FiredIds(v);
    FiredSome(Questions(v));
    Triggers(v);
    var fired, mismatch := Fired(Questions(v)), TotalsApart(estimated, computed);
    var listed := fired + if mismatch then ["item_total_mismatch"] else [];
    ListedBeside(fired, mismatch,
                 (v.suggestedRouting == "other" || v.routingConfidence < CONFIDENCE_FLOOR) && "routing" !in listed);
  }

  lemma Triggers(v: Judgment)
    ensures (exists k :: 0 <= k < 6 && Questions(v)[k].triggered) <==>
      v.documentTypeConf < CONFIDENCE_FLOOR || v.routingConfidence < CONFIDENCE_FLOOR ||
      v.riskConfidence < CONFIDENCE_FLOOR ||
      v.amountsSupported < NOUL_THRESHOLD || v.itemsQtySupported < NOUL_THRESHOLD || v.totalConsistent < NOUL_THRESHOLD
  {
    var qs := Questions(v);
    assert qs[0].triggered == (v.documentTypeConf < CONFIDENCE_FLOOR);
    assert qs[1].triggered == (v.routingConfidence < CONFIDENCE_FLOOR);
    assert qs[2].triggered == (v.amountsSupported < NOUL_THRESHOLD);
    assert qs[3].triggered == (v.itemsQtySupported < NOUL_THRESHOLD);
    assert qs[4].triggered == (v.totalConsistent < NOUL_THRESHOLD);
    assert qs[5].triggered == (v.riskConfidence < CONFIDENCE_FLOOR);
  }

  // When each rule is to be listed, told from the row.
  predicate Due(v: Judgment, estimated: real, computed: real, id: string) {
    || (id == "document_type" && v.documentTypeConf < 0.6)
    || (id == "routing" && v.routingConfidence < 0.6)
    || (id == "amounts_supported" && v.amountsSupported < 0.5)
    || (id == "items_qty_supported" && v.itemsQtySupported < 0.5)
    || (id == "total_consistent" && v.totalConsistent < 0.5)
    || (id == "risk" && v.riskConfidence < 0.6)
    || (id == "item_total_mismatch" && Abs(estimated - computed) > 0.05)
    || (id == "effective_routing" && v.suggestedRouting == "other" && v.routingConfidence >= 0.6)
  }

  lemma FiredAreDue(v: Judgment, id: string)
    ensures id in Fired(Questions(v)) <==> id in IDS && Due(v, 0.0, 0.0, id)
  {
    var qs := Questions(v);
    QuestionIds(v);
    FiredAre(qs, id);
    assert qs[0].id == IDS[0] && qs[1].id == IDS[1] && qs[2].id == IDS[2];
    assert qs[3].id == IDS[3] && qs[4].id == IDS[4] && qs[5].id == IDS[5];
    forall k | 0 <= k < 6 && IDS[k] == id ensures qs[k].triggered <==> Due(v, 0.0, 0.0, id) { QuestionIsDue(v, k); }
  }

  lemma QuestionIsDue(v: Judgment, k: nat)
    requires k < 6
    ensures Questions(v)[k].triggered <==> Due(v, 0.0, 0.0, IDS[k])
  {
    assert Questions(v)[0].triggered == (v.documentTypeConf < 0.6);
    assert Questions(v)[1].triggered == (v.routingConfidence < 0.6);
    assert Questions(v)[2].triggered == (v.amountsSupported < 0.5);
    assert Questions(v)[3].triggered == (v.itemsQtySupported < 0.5);
    assert Questions(v)[4].triggered == (v.totalConsistent < 0.5);
    assert Questions(v)[5].triggered == (v.riskConfidence < 0.6);
    QuestionIds(v);
  }

  /** A rule is listed exactly when the row calls for it. */
  lemma ListedIff(v: Judgment, estimated: real, computed: real, id: string)
    ensures id in ExplainSpec(v, estimated, computed).determinants <==> Due(v, estimated, computed, id)
  {
    QuestionIds(v);
    FiredAreDue(v, id);
    FiredAreDue(v, "routing");
  }

  predicate RoutingListed(a: Analysis) {
    "routing" in a.determinants || "effective_routing" in a.determinants
  }

  /** The listed routing rules explain an effective routing of review, except where the model itself
      suggested review with confidence: then it is review and nothing is listed. */
  lemma RoutingIsExplainedIff(v: Judgment, estimated: real, computed: real)
    requires Composed(v, estimated, computed)
    ensures (v.effectiveRouting == "review" <==> RoutingListed(ExplainSpec(v, estimated, computed))) <==>
            !(v.suggestedRouting == "review" && v.routingConfidence >= CONFIDENCE_FLOOR)
  {
    QuestionIds(v);
    FiredIds(v);
    OtherIsNotReview();
    var ds := ExplainSpec(v, estimated, computed).determinants;
    assert v.suggestedRouting == "other" || v.routingConfidence < CONFIDENCE_FLOOR <==>
        RoutingListed(ExplainSpec(v, estimated, computed));
  }

  lemma OtherIsNotReview()
    ensures "other" != "review"
  {
    assert |"other"| == 5 && |"review"| == 6;
  }

  /** The routing codes are shown in words, anything else as it is. */
  lemma ShownWords(v: Judgment, estimated: real, computed: real)
    ensures var shown := ExplainSpec(v, estimated, computed).verdict;
      && (v.effectiveRouting == "fiscal" ==> shown.effectiveRouting == "setor fiscal")
      && (v.effectiveRouting == "accounts_payable" ==> shown.effectiveRouting == "contas a pagar")
      && (v.effectiveRouting !in ["fiscal", "accounts_payable", "review", "other"] ==>
            shown.effectiveRouting == v.effectiveRouting)
      && (v.suggestedRouting == "other" ==> shown.suggestedRouting == "outro")
      && (v.effectiveRouting == v.suggestedRouting ==> shown.effectiveRouting == shown.suggestedRouting)
      && shown.needsReview == v.needsReview && shown.itemsConfirmed == v.itemsConfirmed
  {
    assert |"fiscal"| == 6 && |"accounts_payable"| == 16 && |"other"| == 5 && |"review"| == 6;
  }

  /** What the reader sees as the effective routing is review exactly when the row says so, or holds the
      localized word itself. */
  lemma ShownRouting(v: Judgment, estimated: real, computed: real)
    ensures ExplainSpec(v, estimated, computed).verdict.effectiveRouting == "revisão" <==>
            v.effectiveRouting == "review" || v.effectiveRouting == "revisão"
  {
    assert |"revisão"| == 7 && |"setor fiscal"| == 12 && |"contas a pagar"| == 14 && |"outro"| == 5;
    assert |"fiscal"| == 6 && |"accounts_payable"| == 16 && |"other"| == 5 && |"review"| == 6;
    assert "fiscal"[0] == 'f' && "review"[0] == 'r';
  }
}
