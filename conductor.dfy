/** The case conductor: the knowledge questions a case raises, and the case view
    assembled from the risk, guideline and decision agents with its field fallbacks. */
module Conductor {
  import opened Wrappers
  import opened Json
  import opened Schemas
  import opened Text
  import RiskAgent
  import GuidelineAgent
  import ExplainabilityAgent

  // ---------------------------------------------------------------- AI decision

  /** `_coerce_ai_decision`: a falsy value and a value that does not validate both
      give `None`. */
  function CoerceAiDecision(raw: Json, b: Builtins): (r: Option<AiDecision>)
    ensures !Truthy(raw) ==> r.None?
    ensures r.Some? <==> Truthy(raw) && AiDecisionFromJson(raw, b).Ok?
    ensures r.Some? ==> AiDecisionFromJson(raw, b) == Ok(r.value)
  {
    if !Truthy(raw) then None
    else
      match AiDecisionFromJson(raw, b)
      case Ok(d) => Some(d)
      case Failure(_) => None
  }

  // ---------------------------------------------------------------- knowledge queries

  const NfipQuery: string := "What are the NFIP flood insurance eligibility requirements?"
  const FairQuery: string := "When is a property eligible under the Texas FAIR Plan?"
  const IccQuery: string := "What are the ICC (Increased Cost of Compliance) requirements for high-risk flood zones?"
  const DuplicateQuery: string := "What are the exceptions to duplicate flood policy prohibitions under NFIP?"

  /** The flood zones the source singles out; both branches ask the same question. */
  const HighRiskZones: seq<Json> := [Str("A"), Str("AE"), Str("V"), Str("VE")]

  /** `v.lower()`; `None` is the `AttributeError` of a value that is not a string. */
  function LowerText(v: Json): (r: Option<string>)
    ensures r.Some? <==> v.Str?
    ensures v.Str? ==> r == Some(Lower(v.s))
  {
    if v.Str? then Some(Lower(v.s)) else None
  }

  /** Python's `needle in v`: a substring of a string, an item of a list, a key of a
      dict; `None` is the `TypeError` of any other value. */
  function PyIn(needle: string, v: Json): (r: Option<bool>)
    ensures v.Str? ==> r == Some(Contains(v.s, needle))
    ensures r.None? <==> !(v.Str? || v.Arr? || v.Obj?)
  {
    match v
    case Str(s) => Some(Contains(s, needle))
    case Arr(items) => Some(Str(needle) in items)
    case Obj(fs) => Some(HasKey(fs, needle))
    case _ => None
  }

  /** The first question: NFIP eligibility for a homeowners flood coverage, the Texas
      FAIR Plan when the coverage type names "FAIR" or the case mentions "TFPA", NFIP
      for any other homeowners case, and no question otherwise. `docText` is
      `str(case_doc)`; the outer `None` is an exception. */
  function FirstQuery(lob: string, coverageType: Json, docText: string): (r: Option<Option<string>>)
    ensures coverageType.Str? ==> r.Some?
    ensures r.Some? && r.value.Some? ==> r.value.value in {NfipQuery, FairQuery}
    ensures lob == "Homeowners" && r.Some? ==> r.value.Some?
  {
    var homeownersFlood :-
      if lob == "Homeowners" then
        (match LowerText(coverageType) case None => None case Some(l) => Some(Contains(l, "flood")))
      else Some(false);
    if homeownersFlood then Some(Some(NfipQuery))
    else
      var fair :- PyIn("FAIR", coverageType);
      if fair || Contains(docText, "TFPA") then Some(Some(FairQuery))
      else if lob == "Homeowners" then Some(Some(NfipQuery))
      else Some(None)
  }

  /** On a string coverage type the first question is chosen by these rules: "FAIR"
      is matched case-sensitively, "flood" after lowering. A homeowners case whose
      coverage type names "FAIR" but not "flood" gets the FAIR Plan question. */
  lemma FirstQueryRules(lob: string, coverage: string, docText: string)
    ensures FirstQuery(lob, Str(coverage), docText).Some?
    ensures var fair := Contains(coverage, "FAIR") || Contains(docText, "TFPA");
      var flood := Contains(Lower(coverage), "flood");
      var q := FirstQuery(lob, Str(coverage), docText).value;
      (q == Some(FairQuery) <==> fair && !(lob == "Homeowners" && flood))
      && (q == Some(NfipQuery) <==> lob == "Homeowners" && (flood || !fair))
      && (q.None? <==> lob != "Homeowners" && !fair)
  {
    assert FairQuery != NfipQuery by { assert |FairQuery| != |NfipQuery|; }
  }

  /** The duplicate-policy question is asked when "flood" occurs in the lowered line
      of business or coverage type; `None` is an exception of `.lower()`. */
  function FloodCase(lob: string, coverageType: Json): (r: Option<bool>)
    ensures Contains(Lower(lob), "flood") ==> r == Some(true)
    ensures coverageType.Str? ==> r == Some(Contains(Lower(lob), "flood") || Contains(Lower(coverageType.s), "flood"))
  {
    if Contains(Lower(lob), "flood") then Some(true)
    else
      match LowerText(coverageType)
      case None => None
      case Some(l) => Some(Contains(l, "flood"))
  }

  /** The question list built from the first question and the flood test. */
  function QueryPlan(first: Option<string>, flood: bool): (r: seq<string>)
    ensures 1 <= |r| <= 3 && IccQuery in r
    ensures first.Some? ==> r[0] == first.value
    ensures first.None? ==> r[0] == IccQuery
    ensures flood ==> r[|r| - 1] == DuplicateQuery
  {
    (if first.Some? then [first.value] else []) + [IccQuery] + (if flood then [DuplicateQuery] else [])
  }

  lemma DistinctQueries()
    ensures IccQuery != DuplicateQuery && IccQuery != NfipQuery && IccQuery != FairQuery
    ensures DuplicateQuery != NfipQuery && DuplicateQuery != FairQuery
  {
    assert |IccQuery| == 87 && |DuplicateQuery| == 74;
    assert |NfipQuery| == 59 && |FairQuery| == 54;
  }

  /** The questions are distinct, so the duplicate-policy question is in the list
      exactly for a flood case. */
  lemma QueryPlanShape(first: Option<string>, flood: bool)
    requires first.Some? ==> first.value in {NfipQuery, FairQuery}
    ensures DuplicateQuery in QueryPlan(first, flood) <==> flood
  {
    DistinctQueries();
    var q := QueryPlan(first, flood);
    if first.Some? {
      assert q[1] == IccQuery;
    } else {
      assert q[0] == IccQuery;
    }
  }

  /** The questions `_generate_knowledge_queries` returns for a case, or `None` for
      its exceptions: the first question and the flood test on the case's line of
      business and coverage type, laid out by `QueryPlan`. */
  function KnowledgeQueries(caseDoc: Fields, docText: string): Option<seq<string>> {
    if GetDict(caseDoc, "property").None? || GetDict(caseDoc, "coverage").None? then None
    else
      var lobValue := GetOr(caseDoc, "lob", Str("Homeowners"));
      var coverageType := GetOr(GetDict(caseDoc, "coverage").value, "type", Str(""));
      if !lobValue.Str? then None
      else
        var first := FirstQuery(lobValue.s, coverageType, docText);
        var flood := FloodCase(lobValue.s, coverageType);
        if first.None? || flood.None? then None
        else Some(QueryPlan(first.value, flood.value))
  }

  /** A case gets one to three questions, the ICC question among them, its first
      question (when it has one) the NFIP or FAIR Plan question, and the
      duplicate-policy question exactly for a flood case. */
  lemma KnowledgeQueriesShape(caseDoc: Fields, docText: string)
    requires KnowledgeQueries(caseDoc, docText).Some?
    ensures var qs := KnowledgeQueries(caseDoc, docText).value;
      1 <= |qs| <= 3 && IccQuery in qs
      && (qs[0] == IccQuery || qs[0] in {NfipQuery, FairQuery})
      && (DuplicateQuery in qs <==>
            FloodCase(GetOr(caseDoc, "lob", Str("Homeowners")).s,
                      GetOr(GetDict(caseDoc, "coverage").value, "type", Str(""))) == Some(true))
  {
    var lob := GetOr(caseDoc, "lob", Str("Homeowners")).s;
    var coverageType := GetOr(GetDict(caseDoc, "coverage").value, "type", Str(""));
    QueryPlanShape(FirstQuery(lob, coverageType, docText).value, FloodCase(lob, coverageType).value);
  }

  /** The question list assembled step by step is the plan, and the final `[:3]` keeps it whole. */
  lemma PlanTrim(q: seq<string>, first: Option<string>, flood: bool)
    requires q == (if first.Some? then [first.value] else []) + [IccQuery] + (if flood then [DuplicateQuery] else [])
    ensures q == QueryPlan(first, flood) && 1 <= |q| <= 3 && q[..if |q| < 3 then |q| else 3] == q
  {
    assert q[..|q|] == q;
  }

  /** `_generate_knowledge_queries`. `docText` is `str(case_doc)`; `None` is an
      exception (a property or coverage that is not a dict, a line of business or
      coverage type that is not a string where `.lower()` or `in` is applied). */
  method GenerateKnowledgeQueries(caseDoc: Fields, docText: string) returns (r: Option<seq<string>>)
    ensures r == KnowledgeQueries(caseDoc, docText)
  {
    var property := GetDict(caseDoc, "property");
    if property.None? {
      return None;
    }
    var coverage := GetDict(caseDoc, "coverage");
    if coverage.None? {
      return None;
    }
    var floodZone := GetOr(property.value, "floodZone", Str(""));
    var coverageType := GetOr(coverage.value, "type", Str(""));
    var lobValue := GetOr(caseDoc, "lob", Str("Homeowners"));
    if !lobValue.Str? {
      return None;
    }
    var lob := lobValue.s;
    var first := FirstQuery(lob, coverageType, docText);
    if first.None? {
      return None;
    }
    var queries: seq<string> := [];
    if first.value.Some? {
      queries := queries + [first.value.value];
    }
    ghost var firstPart := queries;
    assert firstPart == if first.value.Some? then [first.value.value] else [];
    if Truthy(floodZone) && floodZone in HighRiskZones {
      queries := queries + [IccQuery];
    } else {
      queries := queries + [IccQuery];
    }
    assert queries == firstPart + [IccQuery];
    var flood := FloodCase(lob, coverageType);
    if flood.None? {
      return None;
    }
    ghost var middle := queries;
    if flood.value {
      queries := queries + [DuplicateQuery];
    }
    assert queries == middle + (if flood.value then [DuplicateQuery] else []);
    PlanTrim(queries, first.value, flood.value);
    assert KnowledgeQueries(caseDoc, docText) == Some(queries);
    if |queries| == 0 {
      queries := queries + [NfipQuery];
    }
    return Some(queries[..if |queries| < 3 then |queries| else 3]);
  }

  // ---------------------------------------------------------------- knowledge insights

  /** What the insight loop keeps of one answer: `None` (the call raised) and falsy
      answers are skipped, and so are answers that do not validate. */
  /** An answer the insight loop keeps: the call returned a truthy value that
      validates as a `KnowledgeInsight`. */
  predicate Useful(answer: Option<Json>, b: Builtins) {
    answer.Some? && Truthy(answer.value) && InsightFromJson(answer.value, b).Ok?
  }

  function Kept(answer: Option<Json>, b: Builtins): (r: seq<KnowledgeInsight>)
    ensures |r| <= 1
    ensures |r| == 1 ==> answer.Some? && InsightFromJson(answer.value, b) == Ok(r[0])
    ensures Useful(answer, b) ==> r == [InsightFromJson(answer.value, b).value]
    ensures !Useful(answer, b) ==> r == []
  {
    match answer
    case None => []
    case Some(d) =>
      if !Truthy(d) then []
      else match InsightFromJson(d, b) case Ok(i) => [i] case Failure(_) => []
  }

  /** The insights kept for a list of questions, in question order. */
  function Insights(queries: seq<string>, ask: string -> Option<Json>, b: Builtins): (r: seq<KnowledgeInsight>)
    ensures |r| <= |queries|
  {
    if |queries| == 0 then []
    else Insights(queries[..|queries| - 1], ask, b) + Kept(ask(queries[|queries| - 1]), b)
  }

  /** The insights of two question lists are the insights of each, in order. */
  lemma {:induction false} InsightsAppend(q1: seq<string>, q2: seq<string>, ask: string -> Option<Json>, b: Builtins)
    ensures Insights(q1 + q2, ask, b) == Insights(q1, ask, b) + Insights(q2, ask, b)
    decreases |q2|
  {
    if |q2| == 0 {
      assert q1 + q2 == q1;
    } else {
      var all, front := q1 + q2, q2[..|q2| - 1];
      assert all[..|all| - 1] == q1 + front;
      assert all[|all| - 1] == q2[|q2| - 1];
      var last := Kept(ask(q2[|q2| - 1]), b);
      InsightsLast(all, ask, b);
      InsightsLast(q2, ask, b);
      InsightsAppend(q1, front, ask, b);
      AppendAssoc(Insights(q1, ask, b), Insights(front, ask, b), last);
    }
  }

  lemma InsightsLast(queries: seq<string>, ask: string -> Option<Json>, b: Builtins)
    requires |queries| > 0
    ensures Insights(queries, ask, b)
         == Insights(queries[..|queries| - 1], ask, b) + Kept(ask(queries[|queries| - 1]), b)
  {
  }

  lemma AppendAssoc(x: seq<KnowledgeInsight>, y: seq<KnowledgeInsight>, z: seq<KnowledgeInsight>)
    ensures x + y + z == x + (y + z)
  {
  }

  /** Every kept insight is the validated answer to one of the questions. */
  lemma {:induction false} InsightsValidated(queries: seq<string>, ask: string -> Option<Json>, b: Builtins, k: nat)
    requires k < |Insights(queries, ask, b)|
    ensures exists i :: (0 <= i < |queries| && ask(queries[i]).Some?
                         && InsightFromJson(ask(queries[i]).value, b) == Ok(Insights(queries, ask, b)[k]))
  {
    var front := queries[..|queries| - 1];
    var i := |queries| - 1;
    var tail := Kept(ask(queries[i]), b);
    var all := Insights(queries, ask, b);
    assert all == Insights(front, ask, b) + tail;
    if k < |Insights(front, ask, b)| {
      InsightsValidated(front, ask, b, k);
      var j :| 0 <= j < |front| && ask(front[j]).Some? && InsightFromJson(ask(front[j]).value, b) == Ok(Insights(front, ask, b)[k]);
      assert front[j] == queries[j] && all[k] == Insights(front, ask, b)[k];
      assert 0 <= j < |queries| && ask(queries[j]).Some? && InsightFromJson(ask(queries[j]).value, b) == Ok(all[k]);
    } else {
      assert all[k] == tail[0];
      assert 0 <= i < |queries| && ask(queries[i]).Some? && InsightFromJson(ask(queries[i]).value, b) == Ok(all[k]);
    }
  }

  lemma InsightsSnoc(queries: seq<string>, i: nat, ask: string -> Option<Json>, b: Builtins)
    requires i < |queries|
    ensures Insights(queries[..i + 1], ask, b) == Insights(queries[..i], ask, b) + Kept(ask(queries[i]), b)
  {
    assert queries[..i + 1][..i] == queries[..i];
  }

  /** The question at index `i`, when its answer is kept, contributes its validated
      insight right after the insights of the questions before it. */
  lemma InsightsKeepUseful(queries: seq<string>, i: nat, ask: string -> Option<Json>, b: Builtins)
    requires i < |queries| && Useful(ask(queries[i]), b)
    ensures var k := |Insights(queries[..i], ask, b)|;
      k < |Insights(queries, ask, b)|
      && Insights(queries, ask, b)[k] == InsightFromJson(ask(queries[i]).value, b).value
  {
    assert queries == queries[..i + 1] + queries[i + 1..];
    InsightsAppend(queries[..i + 1], queries[i + 1..], ask, b);
    InsightsSnoc(queries, i, ask, b);
  }

  /** Kept answers keep the order of their questions: a kept answer to an earlier
      question lands before everything the later questions contribute. */
  lemma InsightsOrder(queries: seq<string>, i: nat, j: nat, ask: string -> Option<Json>, b: Builtins)
    requires i < j <= |queries| && Useful(ask(queries[i]), b)
    ensures |Insights(queries[..i], ask, b)| < |Insights(queries[..j], ask, b)|
  {
    var pre := queries[..j];
    assert pre == pre[..i + 1] + pre[i + 1..];
    InsightsAppend(pre[..i + 1], pre[i + 1..], ask, b);
    InsightsSnoc(pre, i, ask, b);
    assert pre[..i] == queries[..i];
  }

  /** The body of the insight loop for one answer: a falsy answer is skipped, and
      so is one that does not validate (the exception the source logs). */
  method KeepAnswer(answer: Option<Json>, b: Builtins) returns (got: seq<KnowledgeInsight>)
    ensures got == Kept(answer, b)
  {
    got := [];
    if answer.Some? && Truthy(answer.value) {
      var insight := InsightFromJson(answer.value, b);
      if insight.Ok? {
        got := [insight.value];
      }
    }
  }

  /** The loop of `build_case_view` that asks one knowledge question per query. */
  method CollectInsights(queries: seq<string>, ask: string -> Option<Json>, b: Builtins) returns (kept: seq<KnowledgeInsight>)
    ensures kept == Insights(queries, ask, b)
  {
    kept := [];
    var i := 0;
    while i < |queries|
      invariant 0 <= i <= |queries|
      invariant kept == Insights(queries[..i], ask, b)
    {
      var got := KeepAnswer(ask(queries[i]), b);
      kept := kept + got;
      InsightsSnoc(queries, i, ask, b);
      i := i + 1;
    }
    assert queries[..|queries|] == queries;
  }

  // ---------------------------------------------------------------- case view

  /** The actions the case view always offers. */
  const Actions: seq<string> := ["bind", "request-info", "refer-senior", "decline"]

  /** `case_doc.get("title") or property.get("address") or f"Case {id}"`. */
  function TitleValue(caseDoc: Fields, property: Fields, caseId: string): (v: Json)
    ensures Truthy(GetOr(caseDoc, "title", Null)) ==> v == GetOr(caseDoc, "title", Null)
    ensures !Truthy(GetOr(caseDoc, "title", Null)) && Truthy(GetOr(property, "address", Null)) ==> v == GetOr(property, "address", Null)
    ensures !Truthy(GetOr(caseDoc, "title", Null)) && !Truthy(GetOr(property, "address", Null)) ==> v == Str("Case " + caseId)
    ensures Truthy(v)
  {
    var title := GetOr(caseDoc, "title", Null);
    var address := GetOr(property, "address", Null);
    if Truthy(title) then title
    else if Truthy(address) then address
    else
      assert |"Case " + caseId| > 0;
      Str("Case " + caseId)
  }

  /** `case_doc.get("decisionType", "HUMAN_REVIEW")` as the literal field checks it. */
  function DecisionTypeValue(caseDoc: Fields): (r: Result<DecisionType>)
    ensures !HasKey(caseDoc, "decisionType") ==> r == Ok(HUMAN_REVIEW)
    ensures r.Ok? ==> GetOr(caseDoc, "decisionType", Str("HUMAN_REVIEW")) == Str(r.value.Name())
  {
    match GetOr(caseDoc, "decisionType", Str("HUMAN_REVIEW"))
    case Str(s) => (match DecisionTypeFromName(s) case Some(t) => Ok(t) case None => Failure("literal_error"))
    case _ => Failure("literal_error")
  }

  /** `case_doc.get("decision") or decide(risk, guidelines)`, validated as the
      view's `DecisionOutput`: a stored decision wins and the agents' decision is
      taken only when there is none. */
  function CaseDecision(caseDoc: Fields, risk: Fields, g: GuidelineAgent.Guidelines, b: Builtins): (r: Option<DecisionOutput>)
    ensures Truthy(GetOr(caseDoc, "decision", Null)) ==>
      (r.Some? <==> DecisionOutputFromJson(GetOr(caseDoc, "decision", Null), b).Ok?)
      && (r.Some? ==> DecisionOutputFromJson(GetOr(caseDoc, "decision", Null), b) == Ok(r.value))
    ensures !Truthy(GetOr(caseDoc, "decision", Null)) ==>
      r == ExplainabilityAgent.Decide(risk, GuidelineAgent.GuidelinesToJson(g).fields, b)
  {
    var stored := GetOr(caseDoc, "decision", Null);
    if Truthy(stored) then
      match DecisionOutputFromJson(stored, b) case Ok(d) => Some(d) case Failure(_) => None
    else ExplainabilityAgent.Decide(risk, GuidelineAgent.GuidelinesToJson(g).fields, b)
  }

  /** `case_doc.get(k) or fallback`. */
  function OrElse(caseDoc: Fields, k: string, fallback: Json): (v: Json)
    ensures Truthy(GetOr(caseDoc, k, Null)) ==> v == GetOr(caseDoc, k, Null)
    ensures !Truthy(GetOr(caseDoc, k, Null)) ==> v == fallback
  {
    var own := GetOr(caseDoc, k, Null);
    if Truthy(own) then own else fallback
  }

  /** The summary and the bullets of the view: the case's own, else the
      explanation's. */
  function SummaryValue(caseDoc: Fields, explanation: Fields): Json {
    OrElse(caseDoc, "summary", GetOr(explanation, "summary", Null))
  }

  function BulletsValue(caseDoc: Fields, explanation: Fields): Json {
    OrElse(caseDoc, "support_bullets", GetOr(explanation, "bullets", Null))
  }

  /** `case_doc.get("address") or property.get("address")`. */
  function AddressValue(caseDoc: Fields, property: Fields): Json {
    OrElse(caseDoc, "address", GetOr(property, "address", Null))
  }

  /** No step of `build_case_view` raises: the risk, guideline and decision steps
      succeed, the property is a dict, the query plan can be built, and the
      summary, bullets, title, decision type and address validate as the view's
      fields. */
  predicate ViewBuilds(caseId: string, caseDoc: Fields, docText: string, explanation: Fields, b: Builtins) {
    RiskAgent.AssessRisk(caseDoc, b).Some?
    && var risk := RiskAgent.RiskToJson(RiskAgent.AssessRisk(caseDoc, b).value).fields;
    GuidelineAgent.GuidelineOutcome(caseDoc, risk).Some?
    && CaseDecision(caseDoc, risk, GuidelineAgent.GuidelineOutcome(caseDoc, risk).value, b).Some?
    && LaxStr(SummaryValue(caseDoc, explanation)).Ok?
    && StrList(BulletsValue(caseDoc, explanation)).Ok?
    && GetDict(caseDoc, "property").Some?
    && OptStrValue(TitleValue(caseDoc, GetDict(caseDoc, "property").value, caseId)).Ok?
    && DecisionTypeValue(caseDoc).Ok?
    && OptStrValue(AddressValue(caseDoc, GetDict(caseDoc, "property").value)).Ok?
    && KnowledgeQueries(caseDoc, docText).Some?
  }

  /** `build_case_view` on the stored case `caseDoc` (an empty dict when the case is
      unknown). `docText` is `str(case_doc)`, `explanation` the summary-and-bullets
      dict of the explanation agent, `ask` the knowledge agent. `None` is an exception
      escaping the function or the validation of the view. */
  method BuildCaseView(caseId: string, caseDoc: Fields, docText: string, explanation: Fields,
                       ask: string -> Option<Json>, b: Builtins)
    returns (r: Option<CaseViewModel>)
    ensures r.Some? <==> ViewBuilds(caseId, caseDoc, docText, explanation, b)
    ensures r.Some? ==> r.value.id == caseId && r.value.actions == Actions
    ensures r.Some? ==> r.value.riskLevel == RiskAgent.AssessRisk(caseDoc, b).value.level
    ensures r.Some? ==>
      r.value.title.Some? && Str(r.value.title.value) == TitleValue(caseDoc, GetDict(caseDoc, "property").value, caseId)
    ensures r.Some? ==> OptStrValue(AddressValue(caseDoc, GetDict(caseDoc, "property").value)) == Ok(r.value.address)
    ensures r.Some? ==> DecisionTypeValue(caseDoc) == Ok(r.value.decisionType)
    ensures r.Some? ==> r.value.aiDecision == CoerceAiDecision(GetOr(caseDoc, "aiDecision", Null), b)
    ensures r.Some? ==> LaxStr(SummaryValue(caseDoc, explanation)) == Ok(r.value.summary)
    ensures r.Some? ==> StrList(BulletsValue(caseDoc, explanation)) == Ok(r.value.supportBullets)
    ensures r.Some? ==>
      var risk := RiskAgent.RiskToJson(RiskAgent.AssessRisk(caseDoc, b).value).fields;
      Some(r.value.decision) == CaseDecision(caseDoc, risk, GuidelineAgent.GuidelineOutcome(caseDoc, risk).value, b)
    ensures r.Some? ==>
      var insights := Insights(KnowledgeQueries(caseDoc, docText).value, ask, b);
      r.value.knowledgeInsights == if |insights| > 0 then Some(insights) else None
    ensures r.Some? ==> r.value.fabricPropertySummary.None? && r.value.fabricZipClaimStats.None?
                        && r.value.fabricRiskAssessment.None?
  {
    var risk := RiskAgent.AssessRisk(caseDoc, b);
    if risk.None? {
      return None;
    }
    var riskDict := RiskAgent.RiskToJson(risk.value).fields;
    var guidelines := GuidelineAgent.CheckGuidelines(caseDoc, riskDict);
    if guidelines.None? {
      return None;
    }
    var decision := CaseDecision(caseDoc, riskDict, guidelines.value, b);
    if decision.None? {
      return None;
    }
    var summary := LaxStr(SummaryValue(caseDoc, explanation));
    var bullets := StrList(BulletsValue(caseDoc, explanation));
    if summary.Failure? || bullets.Failure? {
      return None;
    }
    var aiDecision := CoerceAiDecision(GetOr(caseDoc, "aiDecision", Null), b);
    var property := GetDict(caseDoc, "property");
    if property.None? {
      return None;
    }
    var title := OptStrValue(TitleValue(caseDoc, property.value, caseId));
    var decisionType := DecisionTypeValue(caseDoc);
    var address := OptStrValue(AddressValue(caseDoc, property.value));
    if title.Failure? || decisionType.Failure? || address.Failure? {
      return None;
    }
    var queries := GenerateKnowledgeQueries(caseDoc, docText);
    if queries.None? {
      return None;
    }
    var insights := CollectInsights(queries.value, ask, b);
    return Some(CaseViewModel(
      id := caseId, title := title.value, decisionType := decisionType.value,
      riskLevel := risk.value.level, address := address.value, aiDecision := aiDecision,
      summary := summary.value, decision := decision.value, supportBullets := bullets.value,
      actions := Actions, knowledgeInsights := if |insights| > 0 then Some(insights) else None));
  }
}
