/** The property risk heuristic: a score from the AI decision payload when it has
    one, otherwise from the age and size of the property, mapped to a risk level. */
module RiskAgent {
  import opened Wrappers
  import opened Json
  import opened Schemas
  import Text

  /** The year `assess_risk` measures property age from. */
  const CurrentYear: int := 2025

  /** The order of the levels, low to high. */
  function Rank(l: Option<RiskLevel>): int {
    match l
    case None => 0
    case Some(Low) => 1
    case Some(Medium) => 2
    case Some(High) => 3
  }

  /** `_derive_level`: no score has no level; the thresholds are inclusive upper
      bounds. */
  function DeriveLevel(score: Option<real>): (l: Option<RiskLevel>)
    ensures l.None? <==> score.None?
    ensures l == Some(Low) <==> score.Some? && score.value <= 0.33
    ensures l == Some(Medium) <==> score.Some? && 0.33 < score.value <= 0.66
    ensures l == Some(High) <==> score.Some? && 0.66 < score.value
  {
    match score
    case None => None
    case Some(s) =>
      if s <= 0.33 then Some(Low)
      else if s <= 0.66 then Some(Medium)
      else Some(High)
  }

  /** A higher score never maps to a lower level. */
  lemma DeriveLevelMonotone(a: real, b: real)
    requires a <= b
    ensures Rank(DeriveLevel(Some(a))) <= Rank(DeriveLevel(Some(b)))
  {
  }

  function Min(a: real, b: real): real {
    if a <= b then a else b
  }

  /** The score of the heuristic branch before the cap at 1.0. */
  function Heuristic(sqft: int, ageYears: int): (r: real)
    ensures sqft >= 4000 && ageYears >= 20 ==> r == 1.0
    ensures sqft <= 0 && ageYears <= 0 ==> r <= 0.5
  {
    0.5 + Min(0.4, sqft as real / 10000.0) + Min(0.1, ageYears as real / 200.0)
  }

  /** The heuristic never exceeds 1.0, so the cap at 1.0 never changes it; for a
      non-negative area and an age of at least a year it is above 0.5. */
  lemma HeuristicBounds(sqft: int, ageYears: int)
    ensures Heuristic(sqft, ageYears) <= 1.0
    ensures Min(1.0, Heuristic(sqft, ageYears)) == Heuristic(sqft, ageYears)
    ensures sqft >= 0 && ageYears >= 1 ==> 0.5 < Heuristic(sqft, ageYears)
  {
  }

  /** An older or larger property never scores lower. */
  lemma HeuristicMonotone(sqft: int, ageYears: int, sqft': int, ageYears': int)
    requires sqft <= sqft' && ageYears <= ageYears'
    ensures Heuristic(sqft, ageYears) <= Heuristic(sqft', ageYears')
  {
  }

  /** The dict `assess_risk` returns. */
  datatype Risk = Risk(ageYears: int, sqft: int, score: real, level: Option<RiskLevel>, explanation: string)

  function RiskToJson(r: Risk): Json {
    Obj([("risk_factors", Obj([("age_years", Int(r.ageYears)), ("sqft", Int(r.sqft))])),
         ("score", Real(r.score)),
         ("level", match r.level case None => Null case Some(l) => Str(l.Name())),
         ("explanation", Str(r.explanation))])
  }

  /** `case_doc.get("aiDecision") or {}`: a missing or falsy decision reads as an
      empty dict; `None` is the `AttributeError` of a truthy value that is not a
      dict. */
  function AiDecisionInfo(caseDoc: Fields): (r: Option<Fields>)
    ensures !Truthy(GetOr(caseDoc, "aiDecision", Null)) ==> r == Some([])
    ensures r.None? <==> Truthy(GetOr(caseDoc, "aiDecision", Null)) && !GetOr(caseDoc, "aiDecision", Null).Obj?
  {
    var v := GetOr(caseDoc, "aiDecision", Null);
    if !Truthy(v) then Some([])
    else if v.Obj? then Some(v.fields)
    else None
  }

  /** `max(1, 2025 - int(year))`. */
  function AgeYears(year: int): (age: int)
    ensures age >= 1
    ensures age >= CurrentYear - year
    ensures age == 1 || age == CurrentYear - year
  {
    if CurrentYear - year >= 1 then CurrentYear - year else 1
  }

  /** `assess_risk`: `None` is the exception the source raises (a property or AI
      decision that is not a dict, a year or area that `int()` rejects). The
      `round(..., 2)` of the score is not modelled. */
  function AssessRisk(caseDoc: Fields, b: Builtins): (r: Option<Risk>)
    ensures r.Some? <==>
      GetDict(caseDoc, "property").Some? && AiDecisionInfo(caseDoc).Some?
      && PyInt(GetOr(GetDict(caseDoc, "property").value, "yearBuilt", Int(2000)), b).Some?
      && PyInt(GetOr(GetDict(caseDoc, "property").value, "sqft", Int(2000)), b).Some?
    ensures r.Some? ==> r.value.ageYears >= 1
    ensures r.Some? ==> r.value.level == DeriveLevel(Some(r.value.score)) && r.value.level.Some?
    ensures r.Some? ==> Text.StartsWith(r.value.explanation, "Risk score ")
    ensures r.Some? ==>
      var score := Numeric(GetOr(AiDecisionInfo(caseDoc).value, "riskScore", Null));
      if score.Some? then r.value.score == score.value
      else r.value.score == Heuristic(r.value.sqft, r.value.ageYears) && r.value.score <= 1.0
  {
    var prop :- GetDict(caseDoc, "property");
    var year :- PyInt(GetOr(prop, "yearBuilt", Int(2000)), b);
    var age := AgeYears(year);
    var sqft :- PyInt(GetOr(prop, "sqft", Int(2000)), b);
    var ai :- AiDecisionInfo(caseDoc);
    var given := Numeric(GetOr(ai, "riskScore", Null));
    var score := Score(given, sqft, age);
    Some(Risk(age, sqft, score, DeriveLevel(Some(score)), Explanation(given.Some?, score, age, sqft, b)))
  }

  /** The numeric AI score when there is one, otherwise the heuristic capped at 1.0. */
  function Score(given: Option<real>, sqft: int, ageYears: int): (s: real)
    ensures given.Some? ==> s == given.value
    ensures given.None? ==> s == Heuristic(sqft, ageYears) && s <= 1.0
  {
    HeuristicBounds(sqft, ageYears);
    if given.Some? then given.value else Min(1.0, Heuristic(sqft, ageYears))
  }

  /** The explanation text, naming where the score came from. */
  function Explanation(fromAi: bool, score: real, ageYears: int, sqft: int, b: Builtins): (e: string)
    ensures Text.StartsWith(e, "Risk score ")
  {
    var e :=
      if fromAi then
        "Risk score " + b.floatRepr(score) + " sourced from AI decision payload; mapped to underwriting risk level."
      else
        "Risk score " + b.floatRepr(score) + " computed from property heuristics (age=" + Text.IntToString(ageYears)
        + ", sqft=" + Text.IntToString(sqft) + ").";
    assert e[..11] == "Risk score ";
    e
  }

  /** The risk factors echo the age and area that were read. */
  lemma RiskFactorsEcho(caseDoc: Fields, b: Builtins)
    requires AssessRisk(caseDoc, b).Some?
    ensures var prop := GetDict(caseDoc, "property").value;
      AssessRisk(caseDoc, b).value.ageYears == AgeYears(PyInt(GetOr(prop, "yearBuilt", Int(2000)), b).value)
      && Some(AssessRisk(caseDoc, b).value.sqft) == PyInt(GetOr(prop, "sqft", Int(2000)), b)
  {
  }

  /** A case with an empty property and no AI decision is scored from the default
      year 2000 and area 2000: 0.5 + 0.2 + 0.1 = 0.8, a high risk. */
  lemma DefaultsGiveHigh(b: Builtins)
    ensures AssessRisk([], b).Some?
    ensures AssessRisk([], b).value.ageYears == 25 && AssessRisk([], b).value.sqft == 2000
    ensures AssessRisk([], b).value.score == 0.8
    ensures AssessRisk([], b).value.level == Some(High)
  {
    assert Heuristic(2000, 25) == 0.8;
  }

  /** Without a numeric AI score, a property with a non-negative area is never a low
      risk. */
  lemma HeuristicNeverLow(caseDoc: Fields, b: Builtins)
    requires AssessRisk(caseDoc, b).Some?
    requires Numeric(GetOr(AiDecisionInfo(caseDoc).value, "riskScore", Null)).None?
    requires AssessRisk(caseDoc, b).value.sqft >= 0
    ensures AssessRisk(caseDoc, b).value.level != Some(Low)
  {
    var r := AssessRisk(caseDoc, b).value;
    HeuristicBounds(r.sqft, r.ageYears);
  }

  /** The dumped risk dict carries the score under "score", where the guideline check
      and the decision read it. */
  lemma RiskScoreField(r: Risk)
    ensures GetOr(RiskToJson(r).fields, "score", Int(1)) == Real(r.score)
  {
    var fs := RiskToJson(r).fields;
    GetAt(fs, 1);
  }
}
