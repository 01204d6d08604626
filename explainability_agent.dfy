/** The bind-or-review decision taken from the risk dict and the guideline dict. */
module ExplainabilityAgent {
  import opened Wrappers
  import opened Json
  import opened Schemas
  import GuidelineAgent
  import RiskAgent

  const AutoBindThreshold: real := 0.85

  const FlaggedJustification: string := "Guidelines raised flags; human review required."

  /** `str(risk.get('score'))` for the scores that reach the justification text:
      "None" when the key is absent or holds `None`. */
  function ScoreText(risk: Fields, b: Builtins): string {
    match Get(risk, "score")
    case None => "None"
    case Some(v) => PyStr(v, b).GetOr("None")
  }

  /** `decide`. `None` is an exception escaping it: a flags value that does not
      validate as `List[str]`, or a score that cannot be compared with 0.85. */
  function Decide(risk: Fields, guidelines: Fields, b: Builtins): (r: Option<DecisionOutput>)
    ensures !Truthy(GetOr(guidelines, "pass", Bool(false))) ==>
      (r.Some? <==> StrList(GetOr(guidelines, "flags", Arr([]))).Ok?)
      && (r.Some? ==>
            r.value.outcome == NeedsReview && r.value.confidence == 0.7
            && r.value.justificationMd == FlaggedJustification
            && r.value.reasons == StrList(GetOr(guidelines, "flags", Arr([]))).value
            && r.value.flags == r.value.reasons)
    ensures Truthy(GetOr(guidelines, "pass", Bool(false))) ==>
      (r.Some? <==> Numeric(GetOr(risk, "score", Int(1))).Some?)
      && (r.Some? ==>
            (r.value.outcome == AutoBind <==> Numeric(GetOr(risk, "score", Int(1))).value <= AutoBindThreshold)
            && r.value.outcome in {AutoBind, NeedsReview}
            && r.value.confidence == (if r.value.outcome == AutoBind then 0.9 else 0.75)
            && r.value.justificationMd
               == "Outcome " + r.value.outcome.Name() + " based on risk score " + ScoreText(risk, b) + " and guideline pass."
            && r.value.reasons == [] && r.value.flags == [])
    ensures r.Some? ==> r.value.outcome != Decline
    ensures r.Some? ==> r.value.confidence in {0.7, 0.75, 0.9}
    ensures r.Some? && r.value.outcome == AutoBind ==> r.value.confidence == 0.9
  {
    if !Truthy(GetOr(guidelines, "pass", Bool(false))) then
      match StrList(GetOr(guidelines, "flags", Arr([])))
      case Failure(_) => None
      case Ok(flags) => Some(DecisionOutput(NeedsReview, 0.7, FlaggedJustification, flags, flags))
    else
      match Numeric(GetOr(risk, "score", Int(1)))
      case None => None
      case Some(score) =>
        var outcome := if score <= AutoBindThreshold then AutoBind else NeedsReview;
        var confidence := if outcome == AutoBind then 0.9 else 0.75;
        Some(DecisionOutput(outcome, confidence,
          "Outcome " + outcome.Name() + " based on risk score " + ScoreText(risk, b) + " and guideline pass."))
  }

  /** A passing guideline dict without a score is sent to review: the missing score
      counts as 1. */
  lemma MissingScoreNeedsReview(risk: Fields, guidelines: Fields, b: Builtins)
    requires Truthy(GetOr(guidelines, "pass", Bool(false)))
    requires !HasKey(risk, "score")
    ensures Decide(risk, guidelines, b).Some?
    ensures Decide(risk, guidelines, b).value.outcome == NeedsReview
    ensures Decide(risk, guidelines, b).value.confidence == 0.75
  {
  }

  /** A guideline dict without "pass" is treated as failing. */
  lemma MissingPassFails(risk: Fields, guidelines: Fields, b: Builtins)
    requires !HasKey(guidelines, "pass")
    requires !HasKey(guidelines, "flags")
    ensures Decide(risk, guidelines, b) == Some(DecisionOutput(NeedsReview, 0.7, FlaggedJustification, [], []))
  {
    assert StrList(Arr([])) == Ok([]);
  }

  /** On the dict the guideline check returns, a failing check is sent to review with
      exactly the flags it raised as the reasons. */
  lemma FlaggedGuidelinesReviewed(risk: Fields, g: GuidelineAgent.Guidelines, b: Builtins)
    requires !g.pass
    ensures Decide(risk, GuidelineAgent.GuidelinesToJson(g).fields, b)
      == Some(DecisionOutput(NeedsReview, 0.7, FlaggedJustification, g.flags, g.flags))
  {
    var fs := GuidelineAgent.GuidelinesToJson(g).fields;
    assert GetOr(fs, "pass", Bool(false)) == Bool(false);
    assert GetOr(fs, "flags", Arr([])) == StrArr(g.flags) by { GetAt(fs, 1); }
    StrListRoundTrip(g.flags);
  }

  /** Risk and guidelines together: a case is bound automatically exactly when the
      guideline check passed and the risk score is at most 0.85. */
  lemma AutoBindExactly(r: RiskAgent.Risk, g: GuidelineAgent.Guidelines, b: Builtins)
    ensures Decide(RiskAgent.RiskToJson(r).fields, GuidelineAgent.GuidelinesToJson(g).fields, b).Some?
    ensures Decide(RiskAgent.RiskToJson(r).fields, GuidelineAgent.GuidelinesToJson(g).fields, b).value.outcome == AutoBind
      <==> g.pass && r.score <= AutoBindThreshold
  {
    var gs := GuidelineAgent.GuidelinesToJson(g).fields;
    RiskAgent.RiskScoreField(r);
    assert GetOr(gs, "pass", Bool(false)) == Bool(g.pass);
    if !g.pass {
      FlaggedGuidelinesReviewed(RiskAgent.RiskToJson(r).fields, g, b);
    }
  }
}
