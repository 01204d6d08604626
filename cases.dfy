/** The case router: the guards of the case-view handler and the AI-decision rerun,
    which returns a copy of the stored decision with a new validation time and a
    decision time of at least 30 seconds. */
module Cases {
  import opened Wrappers
  import opened Json
  import Schemas

  /** What a handler answers: its body, or the `HTTPException` it raises. An
      exception the handler does not catch is FastAPI's 500 answer. */
  datatype Reply<T> = Success(body: T) | HttpError(status: int, detail: string)

  const InternalError: string := "Internal Server Error"

  /** `if not case`: no stored case, or an empty one. */
  predicate Missing(stored: Option<Fields>) {
    stored.None? || stored.value == []
  }

  /** `CaseContext(case_id=..., lob=case.get("lob", "Homeowners"))`: the line of
      business must be one of the literals. */
  function CaseContextOf(caseId: string, caseDoc: Fields): (r: Result<Schemas.CaseContext>)
    ensures !HasKey(caseDoc, "lob") ==> r == Ok(Schemas.CaseContext(caseId))
    ensures r.Ok? ==> r.value.caseId == caseId && r.value.intent == Schemas.render_case
    ensures r.Ok? && HasKey(caseDoc, "lob") ==> Get(caseDoc, "lob") == Some(Str(r.value.lob.Name()))
  {
    match GetOr(caseDoc, "lob", Str("Homeowners"))
    case Str(name) =>
      (match Schemas.LobFromName(name)
       case Some(lob) => Ok(Schemas.CaseContext(caseId, lob))
       case None => Failure("literal_error"))
    case _ => Failure("literal_error")
  }

  /** `get_case_view` up to the call of `build_case_view`: the context that call is
      given, or the 404 of an unknown case. */
  function GetCaseView(caseId: string, stored: Option<Fields>): (r: Reply<Schemas.CaseContext>)
    ensures Missing(stored) ==> r == HttpError(404, "Case not found")
    ensures !Missing(stored) ==>
      (r.Success? <==> CaseContextOf(caseId, stored.value).Ok?)
    ensures r.Success? ==> r.body == CaseContextOf(caseId, stored.value).value
    ensures r.HttpError? ==> r.status in {404, 500}
  {
    if Missing(stored) then HttpError(404, "Case not found")
    else
      match CaseContextOf(caseId, stored.value)
      case Ok(ctx) => Success(ctx)
      case Failure(_) => HttpError(500, InternalError)
  }

  /** `max(30, int(updated.get("decisionTimeSeconds", 180)))`, with `None` for the
      exception `int` raises. */
  function DecisionSeconds(decision: Fields, b: Builtins): (r: Option<int>)
    ensures r.Some? ==> r.value >= 30
    ensures !HasKey(decision, "decisionTimeSeconds") ==> r == Some(180)
    ensures r.Some? ==> exists n :: PyInt(GetOr(decision, "decisionTimeSeconds", Int(180)), b) == Some(n)
                                      && r.value == if n < 30 then 30 else n
  {
    match PyInt(GetOr(decision, "decisionTimeSeconds", Int(180)), b)
    case None => None
    case Some(n) => Some(if n < 30 then 30 else n)
  }

  /** The decision as `rerun_ai_decision` returns it; the stored decision itself is
      a value here, so the deep copy leaves it as it was. */
  function Rerun(decision: Fields, nowIso: string, b: Builtins): (r: Option<Fields>)
    ensures r.None? <==> DecisionSeconds(Put(decision, "validatedAt", Str(nowIso)), b).None?
  {
    var updated := Put(decision, "validatedAt", Str(nowIso));
    match DecisionSeconds(updated, b)
    case None => None
    case Some(seconds) => Some(Put(updated, "decisionTimeSeconds", Int(seconds)))
  }

  /** The stored decision time as `int` reads it, 180 when there is none. */
  function StoredSeconds(decision: Fields, b: Builtins): Option<int> {
    PyInt(GetOr(decision, "decisionTimeSeconds", Int(180)), b)
  }

  /** The rerun succeeds exactly when `int` accepts the stored decision time (or
      there is none): stamping `validatedAt` first does not change that entry. */
  lemma RerunDefined(decision: Fields, nowIso: string, b: Builtins)
    ensures Rerun(decision, nowIso, b).Some? <==> StoredSeconds(decision, b).Some?
  {
    PutOther(decision, "validatedAt", Str(nowIso), "decisionTimeSeconds");
  }

  /** The rerun stamps the validation time and the decision time
      max(30, int(stored time or 180)), and every other entry is the stored one. */
  lemma RerunChanges(decision: Fields, nowIso: string, b: Builtins)
    requires Rerun(decision, nowIso, b).Some?
    ensures StoredSeconds(decision, b).Some?
    ensures var r := Rerun(decision, nowIso, b).value;
      var n := StoredSeconds(decision, b).value;
      Get(r, "validatedAt") == Some(Str(nowIso))
      && Get(r, "decisionTimeSeconds") == Some(Int(if n < 30 then 30 else n))
      && (forall k :: k != "validatedAt" && k != "decisionTimeSeconds" ==> Get(r, k) == Get(decision, k))
  {
    var updated := Put(decision, "validatedAt", Str(nowIso));
    var seconds := DecisionSeconds(updated, b).value;
    PutOther(decision, "validatedAt", Str(nowIso), "decisionTimeSeconds");
    PutOther(updated, "decisionTimeSeconds", Int(seconds), "validatedAt");
    forall k | k != "validatedAt" && k != "decisionTimeSeconds"
      ensures Get(Rerun(decision, nowIso, b).value, k) == Get(decision, k)
    {
      PutOther(updated, "decisionTimeSeconds", Int(seconds), k);
      PutOther(decision, "validatedAt", Str(nowIso), k);
    }
  }

  /** The keys keep their order; the two stamped keys are appended when the stored
      decision lacked them. */
  lemma RerunKeys(decision: Fields, nowIso: string, b: Builtins)
    requires Rerun(decision, nowIso, b).Some?
    ensures var ks := Keys(Rerun(decision, nowIso, b).value);
      Keys(decision) <= ks && |ks| <= |decision| + 2
  {
  }

  /** A decision without a stored decision time gets the default of 180 seconds. */
  lemma RerunDefaultSeconds(decision: Fields, nowIso: string, b: Builtins)
    requires !HasKey(decision, "decisionTimeSeconds")
    ensures Rerun(decision, nowIso, b).Some?
    ensures Get(Rerun(decision, nowIso, b).value, "decisionTimeSeconds") == Some(Int(180))
  {
    PutOther(decision, "validatedAt", Str(nowIso), "decisionTimeSeconds");
  }

  /** `rerun_ai_decision`: `nowIso` is the current UTC time in ISO form. An unknown
      case is a 404, a case without a decision a 400; a decision that is not a dict,
      or whose time `int` rejects, is an uncaught exception. */
  function RerunAiDecision(caseId: string, stored: Option<Fields>, nowIso: string, b: Builtins): (r: Reply<Fields>)
    ensures Missing(stored) ==> r == HttpError(404, "Case not found")
    ensures !Missing(stored) && !Truthy(GetOr(stored.value, "aiDecision", Null)) ==>
      r == HttpError(400, "AI decision not available for this case")
    ensures r.Success? ==> !Missing(stored) && GetOr(stored.value, "aiDecision", Null).Obj?
    ensures r.Success? ==> Rerun(GetOr(stored.value, "aiDecision", Null).fields, nowIso, b) == Some(r.body)
  {
    if Missing(stored) then HttpError(404, "Case not found")
    else
      var decision := GetOr(stored.value, "aiDecision", Null);
      if !Truthy(decision) then HttpError(400, "AI decision not available for this case")
      else if !decision.Obj? then HttpError(500, InternalError)
      else
        match Rerun(decision.fields, nowIso, b)
        case None => HttpError(500, InternalError)
        case Some(updated) => Success(updated)
  }

  /** The answer sent for the rerun: the returned dict checked against the
      `AiDecision` response model. */
  function RerunResponse(caseId: string, stored: Option<Fields>, nowIso: string, b: Builtins): (r: Reply<Schemas.AiDecision>)
    ensures RerunAiDecision(caseId, stored, nowIso, b).HttpError? ==>
      r == HttpError(RerunAiDecision(caseId, stored, nowIso, b).status, RerunAiDecision(caseId, stored, nowIso, b).detail)
    ensures r.Success? ==> RerunAiDecision(caseId, stored, nowIso, b).Success?
    ensures r.Success? ==> Schemas.AiDecisionFromJson(Obj(RerunAiDecision(caseId, stored, nowIso, b).body), b) == Ok(r.body)
  {
    match RerunAiDecision(caseId, stored, nowIso, b)
    case HttpError(status, detail) => HttpError(status, detail)
    case Success(updated) =>
      match Schemas.AiDecisionFromJson(Obj(updated), b)
      case Ok(decision) => Success(decision)
      case Failure(_) => HttpError(500, InternalError)
  }

  /** The decision sent back carries the new validation time and the decision
      time max(30, int(stored time or 180)). */
  lemma RerunResponseStamped(caseId: string, stored: Option<Fields>, nowIso: string, b: Builtins)
    requires RerunResponse(caseId, stored, nowIso, b).Success?
    ensures stored.Some? && GetOr(stored.value, "aiDecision", Null).Obj?
    ensures StoredSeconds(GetOr(stored.value, "aiDecision", Null).fields, b).Some?
    ensures RerunResponse(caseId, stored, nowIso, b).body.validatedAt == Some(nowIso)
    ensures var n := StoredSeconds(GetOr(stored.value, "aiDecision", Null).fields, b).value;
            RerunResponse(caseId, stored, nowIso, b).body.decisionTimeSeconds == if n < 30 then 30 else n
  {
    var decision := GetOr(stored.value, "aiDecision", Null).fields;
    var r := RerunAiDecision(caseId, stored, nowIso, b).body;
    RerunChanges(decision, nowIso, b);
    Schemas.AiDecisionStamps(Obj(r), b);
  }
}
