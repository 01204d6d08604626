/** The backend's pydantic models: records with their defaults, the literal
    enumerations, the validators that `Model(**data)` applies, and the dumps that
    `model_dump()` produces for the models that are cached. Timestamps that the
    source formats as ISO-8601 strings are integers (seconds) here. */
module Schemas {
  import opened Wrappers
  import opened Json

  // ---------------------------------------------------------------- literals

  /** `DecisionOutput.outcome`. */
  datatype DecisionOutcome = AutoBind | NeedsReview | Decline {
    function Name(): string {
      match this
      case AutoBind => "AutoBind"
      case NeedsReview => "NeedsReview"
      case Decline => "Decline"
    }
  }

  function DecisionOutcomeFromName(s: string): (r: Option<DecisionOutcome>)
    ensures r.Some? <==> s in {"AutoBind", "NeedsReview", "Decline"}
    ensures r.Some? ==> r.value.Name() == s
  {
    if s == "AutoBind" then Some(AutoBind)
    else if s == "NeedsReview" then Some(NeedsReview)
    else if s == "Decline" then Some(Decline)
    else None
  }

  /** `AiDecision.outcome`. */
  datatype AiOutcome = AUTO_BIND | REFER | DECLINE {
    function Name(): string {
      match this
      case AUTO_BIND => "AUTO_BIND"
      case REFER => "REFER"
      case DECLINE => "DECLINE"
    }
  }

  function AiOutcomeFromName(s: string): (r: Option<AiOutcome>)
    ensures r.Some? <==> s in {"AUTO_BIND", "REFER", "DECLINE"}
    ensures r.Some? ==> r.value.Name() == s
  {
    if s == "AUTO_BIND" then Some(AUTO_BIND)
    else if s == "REFER" then Some(REFER)
    else if s == "DECLINE" then Some(DECLINE)
    else None
  }

  /** `AiDecision.complianceCheck`. */
  datatype ComplianceCheck = PASSED | FLAGGED {
    function Name(): string {
      match this
      case PASSED => "PASSED"
      case FLAGGED => "FLAGGED"
    }
  }

  function ComplianceCheckFromName(s: string): (r: Option<ComplianceCheck>)
    ensures r.Some? <==> s in {"PASSED", "FLAGGED"}
    ensures r.Some? ==> r.value.Name() == s
  {
    if s == "PASSED" then Some(PASSED)
    else if s == "FLAGGED" then Some(FLAGGED)
    else None
  }

  /** `AiTimelineStep.step`. */
  datatype StepKind = PREFILL | ENRICH | SCORE | DECIDE {
    function Name(): string {
      match this
      case PREFILL => "PREFILL"
      case ENRICH => "ENRICH"
      case SCORE => "SCORE"
      case DECIDE => "DECIDE"
    }
  }

  function StepKindFromName(s: string): (r: Option<StepKind>)
    ensures r.Some? <==> s in {"PREFILL", "ENRICH", "SCORE", "DECIDE"}
    ensures r.Some? ==> r.value.Name() == s
  {
    if s == "PREFILL" then Some(PREFILL)
    else if s == "ENRICH" then Some(ENRICH)
    else if s == "SCORE" then Some(SCORE)
    else if s == "DECIDE" then Some(DECIDE)
    else None
  }

  /** `CaseViewModel.decisionType`. */
  datatype DecisionType = AI_APPROVED | HUMAN_REVIEW {
    function Name(): string {
      match this
      case AI_APPROVED => "AI_APPROVED"
      case HUMAN_REVIEW => "HUMAN_REVIEW"
    }
  }

  function DecisionTypeFromName(s: string): (r: Option<DecisionType>)
    ensures r.Some? <==> s in {"AI_APPROVED", "HUMAN_REVIEW"}
    ensures r.Some? ==> r.value.Name() == s
  {
    if s == "AI_APPROVED" then Some(AI_APPROVED)
    else if s == "HUMAN_REVIEW" then Some(HUMAN_REVIEW)
    else None
  }

  /** `CaseViewModel.riskLevel`. */
  datatype RiskLevel = Low | Medium | High {
    function Name(): string {
      match this
      case Low => "Low"
      case Medium => "Medium"
      case High => "High"
    }
  }

  /** `CaseContext.lob`. */
  datatype Lob = Homeowners | Property | Auto | CommercialProperty {
    function Name(): string {
      match this
      case Homeowners => "Homeowners"
      case Property => "Property"
      case Auto => "Auto"
      case CommercialProperty => "CommercialProperty"
    }
  }

  function LobFromName(s: string): (r: Option<Lob>)
    ensures r.Some? <==> s in {"Homeowners", "Property", "Auto", "CommercialProperty"}
    ensures r.Some? ==> r.value.Name() == s
  {
    if s == "Homeowners" then Some(Homeowners)
    else if s == "Property" then Some(Property)
    else if s == "Auto" then Some(Auto)
    else if s == "CommercialProperty" then Some(CommercialProperty)
    else None
  }

  /** `CaseContext.intent`. */
  datatype Intent = render_case | bind | request_info | refer_senior | decline

  /** Every literal's name parses back to it. */
  lemma LiteralNamesRoundTrip()
    ensures forall o: DecisionOutcome :: DecisionOutcomeFromName(o.Name()) == Some(o)
    ensures forall o: AiOutcome :: AiOutcomeFromName(o.Name()) == Some(o)
    ensures forall c: ComplianceCheck :: ComplianceCheckFromName(c.Name()) == Some(c)
    ensures forall k: StepKind :: StepKindFromName(k.Name()) == Some(k)
    ensures forall t: DecisionType :: DecisionTypeFromName(t.Name()) == Some(t)
    ensures forall l: Lob :: LobFromName(l.Name()) == Some(l)
  {
    forall o: DecisionOutcome ensures DecisionOutcomeFromName(o.Name()) == Some(o) {
      match o
      case AutoBind =>
      case NeedsReview =>
      case Decline =>
    }
    forall o: AiOutcome ensures AiOutcomeFromName(o.Name()) == Some(o) {
      match o
      case AUTO_BIND =>
      case REFER =>
      case DECLINE =>
    }
    forall c: ComplianceCheck ensures ComplianceCheckFromName(c.Name()) == Some(c) {
      match c
      case PASSED =>
      case FLAGGED =>
    }
    forall k: StepKind ensures StepKindFromName(k.Name()) == Some(k) {
      match k
      case PREFILL =>
      case ENRICH =>
      case SCORE =>
      case DECIDE =>
    }
    forall t: DecisionType ensures DecisionTypeFromName(t.Name()) == Some(t) {
      match t
      case AI_APPROVED =>
      case HUMAN_REVIEW =>
    }
    forall l: Lob ensures LobFromName(l.Name()) == Some(l) {
      match l
      case Homeowners =>
      case Property =>
      case Auto =>
      case CommercialProperty =>
    }
  }

  // ---------------------------------------------------------------- records

  /** `FabricCountyClaimRow`. */
  datatype ClaimRow = ClaimRow(
    state: Option<string>,
    countyCode: string,
    lossYear: int,
    paidTotal: real,
    claimsCount: int,
    avgPaidPerClaim: real)

  /** `FabricPropertySummary` (Function A). */
  datatype PropertySummary = PropertySummary(
    rows: seq<ClaimRow>,
    totalCounties: int,
    totalClaims: int,
    avgPaidOverall: real,
    cachedAt: int,
    cacheExpiresAt: int,
    rawResponse: Json := Null)

  /** `FabricZipClaimStats` (Function B). */
  datatype ZipStats = ZipStats(
    zipCode: string,
    years: int,
    claimFrequency: int,
    avgLoss: real,
    cachedAt: int,
    cacheExpiresAt: int,
    rawResponse: Json := Null)

  /** `FabricAgentTable`: the generic table of a data-agent answer. */
  datatype Table = Table(
    status: string,
    columnCount: Option<int> := None,
    rowCount: Option<int> := None,
    summary: Option<string> := None,
    comments: Option<string> := None,
    response: seq<Fields> := [],
    columnKeys: seq<string> := [])

  /** `FabricRiskAssessment` (Function C). */
  datatype RiskAssessment = RiskAssessment(
    severityTable: Option<Table>,
    largeLossesTable: Option<Table>,
    countyCode: string,
    minLossThreshold: real,
    cachedAt: int,
    cacheExpiresAt: int,
    rawSeverity: Json := Null,
    rawLargeLosses: Json := Null)

  datatype KnowledgeCitation = KnowledgeCitation(
    manual: string,
    chunkId: Option<string> := None,
    parentId: Option<string> := None,
    score: real)

  datatype KnowledgeInsight = KnowledgeInsight(
    question: string,
    answer: string,
    citations: seq<KnowledgeCitation>,
    generatedAt: string,
    relevanceScore: Option<real> := None)

  datatype AiTimelineStep = AiTimelineStep(
    id: string,
    step: StepKind,
    title: string,
    description: string,
    startedAt: Option<string> := None,
    completedAt: Option<string> := None)

  datatype FeatureContribution = FeatureContribution(name: string, impact: real, note: Option<string> := None)

  datatype AuditReference = AuditReference(id: string, href: Option<string> := None, hash: Option<string> := None)

  datatype AiDecision = AiDecision(
    outcome: AiOutcome,
    confidence: real,
    riskScore: real,
    decisionTimeSeconds: int,
    justification: string,
    rulesVersion: string,
    modelVersion: string,
    validatedAt: Option<string> := None,
    complianceCheck: Option<ComplianceCheck> := None,
    timeline: seq<AiTimelineStep>,
    featureContributions: Option<seq<FeatureContribution>> := None,
    auditRef: AuditReference)

  datatype DecisionOutput = DecisionOutput(
    outcome: DecisionOutcome,
    confidence: real,
    justificationMd: string,
    reasons: seq<string> := [],
    flags: seq<string> := [])

  /** `CaseViewModel`; the free-form `tabs` dict is not part of the model. */
  datatype CaseViewModel = CaseViewModel(
    id: string,
    title: Option<string> := None,
    decisionType: DecisionType := HUMAN_REVIEW,
    riskLevel: Option<RiskLevel> := None,
    address: Option<string> := None,
    aiDecision: Option<AiDecision> := None,
    summary: string,
    decision: DecisionOutput,
    supportBullets: seq<string>,
    actions: seq<string>,
    knowledgeInsights: Option<seq<KnowledgeInsight>> := None,
    fabricPropertySummary: Option<PropertySummary> := None,
    fabricZipClaimStats: Option<ZipStats> := None,
    fabricRiskAssessment: Option<RiskAssessment> := None)

  datatype CaseContext = CaseContext(caseId: string, lob: Lob := Homeowners, intent: Intent := render_case)

  /** The declared defaults of the models that have them. */
  lemma Defaults(status: string, caseId: string, o: DecisionOutcome, c: real, j: string,
                 summary: string, bullets: seq<string>, actions: seq<string>)
    ensures Table(status).response == [] && Table(status).columnKeys == []
    ensures Table(status).columnCount.None? && Table(status).rowCount.None?
    ensures Table(status).summary.None? && Table(status).comments.None?
    ensures DecisionOutput(o, c, j).reasons == [] && DecisionOutput(o, c, j).flags == []
    ensures CaseContext(caseId).lob == Homeowners && CaseContext(caseId).intent == render_case
    ensures var v := CaseViewModel(id := caseId, summary := summary, decision := DecisionOutput(o, c, j),
                                   supportBullets := bullets, actions := actions);
      v.decisionType == HUMAN_REVIEW && v.riskLevel.None? && v.title.None? && v.address.None?
      && v.aiDecision.None? && v.knowledgeInsights.None? && v.fabricPropertySummary.None?
      && v.fabricZipClaimStats.None? && v.fabricRiskAssessment.None?
  {
  }

  // ---------------------------------------------------------------- validators

  /** A list field with an empty default: absent gives `[]`. */
  function DefaultStrList(fs: Fields, k: string): Result<seq<string>> {
    match Get(fs, k)
    case None => Ok([])
    case Some(v) => StrList(v)
  }

  function DefaultObjList(fs: Fields, k: string): Result<seq<Fields>> {
    match Get(fs, k)
    case None => Ok([])
    case Some(v) => ObjList(v)
  }

  /** An optional `int` field with two accepted names (`AliasChoices`): the first
      name present is the one validated. */
  function AliasInt(fs: Fields, k1: string, k2: string, b: Builtins): Result<Option<int>> {
    if HasKey(fs, k1) then OptInt(fs, k1, b) else OptInt(fs, k2, b)
  }

  /** A timestamp field (an ISO string in the source, integer seconds here). */
  function ReqStamp(fs: Fields, k: string): Result<int> {
    match Get(fs, k)
    case Some(Int(i)) => Ok(i)
    case _ => Failure("datetime " + k)
  }

  /** `ClaimRow(**v)`: a dict holding every required field; the county code is a string. */
  function ClaimRowFromJson(v: Json, b: Builtins): (r: Result<ClaimRow>)
    ensures r.Ok? ==> v.Obj? && Get(v.fields, "county_code") == Some(Str(r.value.countyCode))
    ensures r.Ok? ==> HasKey(v.fields, "loss_year") && HasKey(v.fields, "paid_total")
                      && HasKey(v.fields, "claims_count") && HasKey(v.fields, "avg_paid_per_claim")
  {
    if !v.Obj? then Failure("model_type")
    else
      var fs := v.fields;
      var state :- OptStr(fs, "state");
      var county :- ReqStr(fs, "county_code");
      var year :- ReqInt(fs, "loss_year", b);
      var paid :- ReqFloat(fs, "paid_total", b);
      var count :- ReqInt(fs, "claims_count", b);
      var avg :- ReqFloat(fs, "avg_paid_per_claim", b);
      Ok(ClaimRow(state, county, year, paid, count, avg))
  }

  function ClaimRowToJson(r: ClaimRow): Json {
    Obj([("state", OptStrJson(r.state)), ("county_code", Str(r.countyCode)),
         ("loss_year", Int(r.lossYear)), ("paid_total", Real(r.paidTotal)),
         ("claims_count", Int(r.claimsCount)), ("avg_paid_per_claim", Real(r.avgPaidPerClaim))])
  }

  /** `List[...]` of the item model: it fails exactly when some item fails, and
      item `i` of the result is item `i` validated. */
  function ClaimRowList(items: seq<Json>, b: Builtins): (r: Result<seq<ClaimRow>>)
    ensures r.Ok? <==> forall i :: 0 <= i < |items| ==> ClaimRowFromJson(items[i], b).Ok?
    ensures r.Ok? ==> |r.value| == |items|
    ensures r.Ok? ==> forall i :: 0 <= i < |items| ==> ClaimRowFromJson(items[i], b) == Ok(r.value[i])
  {
    if |items| == 0 then Ok([])
    else
      assert forall i :: 1 <= i < |items| ==> items[1..][i - 1] == items[i];
      var x :- ClaimRowFromJson(items[0], b);
      var rest :- ClaimRowList(items[1..], b);
      Ok([x] + rest)
  }

  /** `FabricAgentTable(**v)`: the status is required; a missing `response` or
      `column_keys` is the empty list, a present one must be a list of dicts or of
      strings. */
  function TableFromJson(v: Json, b: Builtins): (r: Result<Table>)
    ensures r.Ok? ==> v.Obj? && Get(v.fields, "status") == Some(Str(r.value.status))
    ensures r.Ok? ==> if HasKey(v.fields, "response") then ObjArr(r.value.response) == Get(v.fields, "response").value
                      else r.value.response == []
    ensures r.Ok? ==> if HasKey(v.fields, "column_keys") then StrArr(r.value.columnKeys) == Get(v.fields, "column_keys").value
                      else r.value.columnKeys == []
  {
    if !v.Obj? then Failure("model_type")
    else
      var fs := v.fields;
      var status :- ReqStr(fs, "status");
      var columns :- AliasInt(fs, "columns", "column_count", b);
      var rows :- AliasInt(fs, "rows", "row_count", b);
      var summary :- OptStr(fs, "summary");
      var comments :- OptStr(fs, "comments");
      var response :- DefaultObjList(fs, "response");
      var keys :- DefaultStrList(fs, "column_keys");
      Ok(Table(status, columns, rows, summary, comments, response, keys))
  }

  /** `FabricAgentTable.model_dump()`: the field names, not the aliases. */
  function TableToJson(t: Table): Json {
    Obj([("status", Str(t.status)), ("column_count", OptIntJson(t.columnCount)),
         ("row_count", OptIntJson(t.rowCount)), ("summary", OptStrJson(t.summary)),
         ("comments", OptStrJson(t.comments)), ("response", ObjArr(t.response)),
         ("column_keys", StrArr(t.columnKeys))])
  }

  function OptTableJson(t: Option<Table>): Json {
    match t case Some(x) => TableToJson(x) case None => Null
  }

  /** An `Optional[FabricAgentTable]` field. */
  function OptTable(fs: Fields, k: string, b: Builtins): Result<Option<Table>> {
    match Get(fs, k)
    case None => Ok(None)
    case Some(Null) => Ok(None)
    case Some(v) => (match TableFromJson(v, b) case Ok(t) => Ok(Some(t)) case Failure(e) => Failure(e))
  }

  /** `FabricRiskAssessment(**v)`: the county code, threshold and both timestamps are
      required; the raw responses default to `None`. */
  function RiskAssessmentFromJson(v: Json, b: Builtins): (r: Result<RiskAssessment>)
    ensures r.Ok? ==> v.Obj? && Get(v.fields, "county_code") == Some(Str(r.value.countyCode))
                      && HasKey(v.fields, "min_loss_threshold")
                      && Get(v.fields, "cached_at") == Some(Int(r.value.cachedAt))
                      && Get(v.fields, "cache_expires_at") == Some(Int(r.value.cacheExpiresAt))
    ensures r.Ok? ==> r.value.rawSeverity == GetOr(v.fields, "raw_severity", Null)
                      && r.value.rawLargeLosses == GetOr(v.fields, "raw_large_losses", Null)
  {
    if !v.Obj? then Failure("model_type")
    else
      var fs := v.fields;
      var severity :- OptTable(fs, "severity_table", b);
      var large :- OptTable(fs, "large_losses_table", b);
      var county :- ReqStr(fs, "county_code");
      var threshold :- ReqFloat(fs, "min_loss_threshold", b);
      var cachedAt :- ReqStamp(fs, "cached_at");
      var expiresAt :- ReqStamp(fs, "cache_expires_at");
      Ok(RiskAssessment(severity, large, county, threshold, cachedAt, expiresAt,
                        GetOr(fs, "raw_severity", Null), GetOr(fs, "raw_large_losses", Null)))
  }

  function RiskAssessmentToJson(a: RiskAssessment): Json {
    Obj([("severity_table", OptTableJson(a.severityTable)),
         ("large_losses_table", OptTableJson(a.largeLossesTable)),
         ("county_code", Str(a.countyCode)), ("min_loss_threshold", Real(a.minLossThreshold)),
         ("cached_at", Int(a.cachedAt)), ("cache_expires_at", Int(a.cacheExpiresAt)),
         ("raw_severity", a.rawSeverity), ("raw_large_losses", a.rawLargeLosses)])
  }

  /** `FabricPropertySummary(**v)`: `rows` must be a list, each item a valid row, and
      the totals and both timestamps are required. */
  function PropertySummaryFromJson(v: Json, b: Builtins): (r: Result<PropertySummary>)
    ensures r.Ok? ==> v.Obj? && HasKey(v.fields, "rows") && Get(v.fields, "rows").value.Arr?
                      && |Get(v.fields, "rows").value.items| == |r.value.rows|
    ensures r.Ok? ==> HasKey(v.fields, "total_counties") && HasKey(v.fields, "total_claims")
                      && HasKey(v.fields, "avg_paid_overall")
                      && Get(v.fields, "cached_at") == Some(Int(r.value.cachedAt))
                      && Get(v.fields, "cache_expires_at") == Some(Int(r.value.cacheExpiresAt))
  {
    if !v.Obj? then Failure("model_type")
    else
      var fs := v.fields;
      var rowsJson := GetOr(fs, "rows", Null);
      var rows :- if rowsJson.Arr? then ClaimRowList(rowsJson.items, b) else Failure("list_type");
      var counties :- ReqInt(fs, "total_counties", b);
      var claims :- ReqInt(fs, "total_claims", b);
      var avg :- ReqFloat(fs, "avg_paid_overall", b);
      var cachedAt :- ReqStamp(fs, "cached_at");
      var expiresAt :- ReqStamp(fs, "cache_expires_at");
      Ok(PropertySummary(rows, counties, claims, avg, cachedAt, expiresAt, GetOr(fs, "raw_response", Null)))
  }

  function ClaimRowsJson(rows: seq<ClaimRow>): (j: Json)
    ensures j.Arr? && |j.items| == |rows|
    ensures forall i :: 0 <= i < |rows| ==> j.items[i] == ClaimRowToJson(rows[i])
  {
    Arr(seq(|rows|, i requires 0 <= i < |rows| => ClaimRowToJson(rows[i])))
  }

  function PropertySummaryToJson(p: PropertySummary): Json {
    Obj([("rows", ClaimRowsJson(p.rows)), ("total_counties", Int(p.totalCounties)),
         ("total_claims", Int(p.totalClaims)), ("avg_paid_overall", Real(p.avgPaidOverall)),
         ("cached_at", Int(p.cachedAt)), ("cache_expires_at", Int(p.cacheExpiresAt)),
         ("raw_response", p.rawResponse)])
  }

  /** `FabricZipStats(**v)`: the ZIP code, the figures and both timestamps are required. */
  function ZipStatsFromJson(v: Json, b: Builtins): (r: Result<ZipStats>)
    ensures r.Ok? ==> v.Obj? && Get(v.fields, "zip_code") == Some(Str(r.value.zipCode))
                      && HasKey(v.fields, "years") && HasKey(v.fields, "claim_frequency")
                      && HasKey(v.fields, "avg_loss")
                      && Get(v.fields, "cached_at") == Some(Int(r.value.cachedAt))
                      && Get(v.fields, "cache_expires_at") == Some(Int(r.value.cacheExpiresAt))
  {
    if !v.Obj? then Failure("model_type")
    else
      var fs := v.fields;
      var zip :- ReqStr(fs, "zip_code");
      var years :- ReqInt(fs, "years", b);
      var freq :- ReqInt(fs, "claim_frequency", b);
      var avg :- ReqFloat(fs, "avg_loss", b);
      var cachedAt :- ReqStamp(fs, "cached_at");
      var expiresAt :- ReqStamp(fs, "cache_expires_at");
      Ok(ZipStats(zip, years, freq, avg, cachedAt, expiresAt, GetOr(fs, "raw_response", Null)))
  }

  function ZipStatsToJson(z: ZipStats): Json {
    Obj([("zip_code", Str(z.zipCode)), ("years", Int(z.years)),
         ("claim_frequency", Int(z.claimFrequency)), ("avg_loss", Real(z.avgLoss)),
         ("cached_at", Int(z.cachedAt)), ("cache_expires_at", Int(z.cacheExpiresAt)),
         ("raw_response", z.rawResponse)])
  }

  /** `KnowledgeCitation(**v)`: the manual and the score are required. */
  function CitationFromJson(v: Json, b: Builtins): (r: Result<KnowledgeCitation>)
    ensures r.Ok? ==> v.Obj? && Get(v.fields, "manual") == Some(Str(r.value.manual)) && HasKey(v.fields, "score")
  {
    if !v.Obj? then Failure("model_type")
    else
      var fs := v.fields;
      var manual :- ReqStr(fs, "manual");
      var chunk :- OptStr(fs, "chunkId");
      var parent :- OptStr(fs, "parentId");
      var score :- ReqFloat(fs, "score", b);
      Ok(KnowledgeCitation(manual, chunk, parent, score))
  }

  /** `List[...]` of the item model: it fails exactly when some item fails, and
      item `i` of the result is item `i` validated. */
  function CitationList(items: seq<Json>, b: Builtins): (r: Result<seq<KnowledgeCitation>>)
    ensures r.Ok? <==> forall i :: 0 <= i < |items| ==> CitationFromJson(items[i], b).Ok?
    ensures r.Ok? ==> |r.value| == |items|
    ensures r.Ok? ==> forall i :: 0 <= i < |items| ==> CitationFromJson(items[i], b) == Ok(r.value[i])
  {
    if |items| == 0 then Ok([])
    else
      assert forall i :: 1 <= i < |items| ==> items[1..][i - 1] == items[i];
      var x :- CitationFromJson(items[0], b);
      var rest :- CitationList(items[1..], b);
      Ok([x] + rest)
  }

  /** `KnowledgeInsight(**v)`: question, answer and generation time are required
      strings, and `citations` a list whose items are all valid citations. */
  function InsightFromJson(v: Json, b: Builtins): (r: Result<KnowledgeInsight>)
    ensures r.Ok? ==> v.Obj? && Get(v.fields, "question") == Some(Str(r.value.question))
                      && Get(v.fields, "answer") == Some(Str(r.value.answer))
                      && Get(v.fields, "generatedAt") == Some(Str(r.value.generatedAt))
    ensures r.Ok? ==> HasKey(v.fields, "citations") && Get(v.fields, "citations").value.Arr?
                      && |Get(v.fields, "citations").value.items| == |r.value.citations|
  {
    if !v.Obj? then Failure("model_type")
    else
      var fs := v.fields;
      var question :- ReqStr(fs, "question");
      var answer :- ReqStr(fs, "answer");
      var citationsJson := GetOr(fs, "citations", Null);
      var citations :- if citationsJson.Arr? then CitationList(citationsJson.items, b) else Failure("list_type");
      var generatedAt :- ReqStr(fs, "generatedAt");
      var relevance :- OptFloat(fs, "relevanceScore", b);
      Ok(KnowledgeInsight(question, answer, citations, generatedAt, relevance))
  }

  /** `AiTimelineStep(**v)`: id, title and description are required strings, and the
      step one of the four literal names. */
  function TimelineStepFromJson(v: Json): (r: Result<AiTimelineStep>)
    ensures r.Ok? ==> v.Obj? && Get(v.fields, "id") == Some(Str(r.value.id))
                      && Get(v.fields, "step") == Some(Str(r.value.step.Name()))
                      && Get(v.fields, "title") == Some(Str(r.value.title))
                      && Get(v.fields, "description") == Some(Str(r.value.description))
  {
    if !v.Obj? then Failure("model_type")
    else
      var fs := v.fields;
      var id :- ReqStr(fs, "id");
      var stepName :- ReqStr(fs, "step");
      var step :- (match StepKindFromName(stepName) case Some(k) => Ok(k) case None => Failure("literal_error"));
      var title :- ReqStr(fs, "title");
      var description :- ReqStr(fs, "description");
      var started :- OptStr(fs, "startedAt");
      var completed :- OptStr(fs, "completedAt");
      Ok(AiTimelineStep(id, step, title, description, started, completed))
  }

  /** `List[...]` of the item model: it fails exactly when some item fails, and
      item `i` of the result is item `i` validated. */
  function TimelineList(items: seq<Json>): (r: Result<seq<AiTimelineStep>>)
    ensures r.Ok? <==> forall i :: 0 <= i < |items| ==> TimelineStepFromJson(items[i]).Ok?
    ensures r.Ok? ==> |r.value| == |items|
    ensures r.Ok? ==> forall i :: 0 <= i < |items| ==> TimelineStepFromJson(items[i]) == Ok(r.value[i])
  {
    if |items| == 0 then Ok([])
    else
      assert forall i :: 1 <= i < |items| ==> items[1..][i - 1] == items[i];
      var x :- TimelineStepFromJson(items[0]);
      var rest :- TimelineList(items[1..]);
      Ok([x] + rest)
  }

  function ContributionFromJson(v: Json, b: Builtins): Result<FeatureContribution> {
    if !v.Obj? then Failure("model_type")
    else
      var fs := v.fields;
      var name :- ReqStr(fs, "name");
      var impact :- ReqFloat(fs, "impact", b);
      var note :- OptStr(fs, "note");
      Ok(FeatureContribution(name, impact, note))
  }

  /** `List[...]` of the item model: it fails exactly when some item fails, and
      item `i` of the result is item `i` validated. */
  function ContributionList(items: seq<Json>, b: Builtins): (r: Result<seq<FeatureContribution>>)
    ensures r.Ok? <==> forall i :: 0 <= i < |items| ==> ContributionFromJson(items[i], b).Ok?
    ensures r.Ok? ==> |r.value| == |items|
    ensures r.Ok? ==> forall i :: 0 <= i < |items| ==> ContributionFromJson(items[i], b) == Ok(r.value[i])
  {
    if |items| == 0 then Ok([])
    else
      assert forall i :: 1 <= i < |items| ==> items[1..][i - 1] == items[i];
      var x :- ContributionFromJson(items[0], b);
      var rest :- ContributionList(items[1..], b);
      Ok([x] + rest)
  }

  function AuditRefFromJson(v: Json): Result<AuditReference> {
    if !v.Obj? then Failure("model_type")
    else
      var fs := v.fields;
      var id :- ReqStr(fs, "id");
      var href :- OptStr(fs, "href");
      var hash :- OptStr(fs, "hash");
      Ok(AuditReference(id, href, hash))
  }

  /** `AiDecision(**raw)`: the outcome and compliance literals are checked. */
  function AiDecisionFromJson(v: Json, b: Builtins): (r: Result<AiDecision>)
    ensures r.Ok? ==> v.Obj? && Get(v.fields, "outcome") == Some(Str(r.value.outcome.Name()))
    ensures r.Ok? ==> (r.value.complianceCheck.None? <==>
      Get(v.fields, "complianceCheck") in {None, Some(Null)})
    ensures r.Ok? && r.value.complianceCheck.Some? ==>
      Get(v.fields, "complianceCheck") == Some(Str(r.value.complianceCheck.value.Name()))
  {
    if !v.Obj? then Failure("model_type")
    else
      var fs := v.fields;
      var outcomeName :- ReqStr(fs, "outcome");
      var outcome :- (match AiOutcomeFromName(outcomeName) case Some(o) => Ok(o) case None => Failure("literal_error"));
      var confidence :- ReqFloat(fs, "confidence", b);
      var riskScore :- ReqFloat(fs, "riskScore", b);
      var seconds :- ReqInt(fs, "decisionTimeSeconds", b);
      var justification :- ReqStr(fs, "justification");
      var rules :- ReqStr(fs, "rulesVersion");
      var modelVersion :- ReqStr(fs, "modelVersion");
      var validatedAt :- OptStr(fs, "validatedAt");
      var complianceName :- OptStr(fs, "complianceCheck");
      var compliance :- (match complianceName
                         case None => Ok(None)
                         case Some(c) =>
                           (match ComplianceCheckFromName(c) case Some(x) => Ok(Some(x)) case None => Failure("literal_error")));
      var timelineJson := GetOr(fs, "timeline", Null);
      var timeline :- if timelineJson.Arr? then TimelineList(timelineJson.items) else Failure("list_type");
      var contributionsJson := GetOr(fs, "featureContributions", Null);
      var contributions :- (if contributionsJson.Null? then Ok(None)
                            else if contributionsJson.Arr? then
                              (match ContributionList(contributionsJson.items, b)
                               case Ok(cs) => Ok(Some(cs)) case Failure(e) => Failure(e))
                            else Failure("list_type"));
      var audit :- AuditRefFromJson(GetOr(fs, "auditRef", Null));
      Ok(AiDecision(outcome, confidence, riskScore, seconds, justification, rules, modelVersion,
                    validatedAt, compliance, timeline, contributions, audit))
  }

  /** The validation time and the decision time are read from their own entries. */
  lemma AiDecisionStamps(v: Json, b: Builtins)
    requires AiDecisionFromJson(v, b).Ok?
    ensures v.Obj?
    ensures OptStr(v.fields, "validatedAt") == Ok(AiDecisionFromJson(v, b).value.validatedAt)
    ensures ReqInt(v.fields, "decisionTimeSeconds", b) == Ok(AiDecisionFromJson(v, b).value.decisionTimeSeconds)
  {
  }

  function DecisionOutputFromJson(v: Json, b: Builtins): (r: Result<DecisionOutput>)
    ensures r.Ok? ==> v.Obj? && Get(v.fields, "outcome") == Some(Str(r.value.outcome.Name()))
  {
    if !v.Obj? then Failure("model_type")
    else
      var fs := v.fields;
      var outcomeName :- ReqStr(fs, "outcome");
      var outcome :- (match DecisionOutcomeFromName(outcomeName) case Some(o) => Ok(o) case None => Failure("literal_error"));
      var confidence :- ReqFloat(fs, "confidence", b);
      var justification :- ReqStr(fs, "justification_md");
      var reasons :- DefaultStrList(fs, "reasons");
      var flags :- DefaultStrList(fs, "flags");
      Ok(DecisionOutput(outcome, confidence, justification, reasons, flags))
  }

  // ---------------------------------------------------------------- round trips

  /** The status and the two counts of a dumped table read back as dumped. */
  lemma TableCounts(t: Table, b: Builtins)
    ensures ReqStr(TableToJson(t).fields, "status") == Ok(t.status)
    ensures AliasInt(TableToJson(t).fields, "columns", "column_count", b) == Ok(t.columnCount)
    ensures AliasInt(TableToJson(t).fields, "rows", "row_count", b) == Ok(t.rowCount)
  {
    var fs := TableToJson(t).fields;
    assert ReqStr(fs, "status") == Ok(t.status) by { GetAt(fs, 0); }
    assert AliasInt(fs, "columns", "column_count", b) == Ok(t.columnCount) by {
      Absent(fs, "columns");
      GetAt(fs, 1);
    }
    assert AliasInt(fs, "rows", "row_count", b) == Ok(t.rowCount) by {
      Absent(fs, "rows");
      GetAt(fs, 2);
    }
  }

  /** The texts and lists of a dumped table read back as dumped. */
  lemma TableContents(t: Table, b: Builtins)
    ensures OptStr(TableToJson(t).fields, "summary") == Ok(t.summary)
    ensures OptStr(TableToJson(t).fields, "comments") == Ok(t.comments)
    ensures DefaultObjList(TableToJson(t).fields, "response") == Ok(t.response)
    ensures DefaultStrList(TableToJson(t).fields, "column_keys") == Ok(t.columnKeys)
  {
    var fs := TableToJson(t).fields;
    assert OptStr(fs, "summary") == Ok(t.summary) by { GetAt(fs, 3); }
    assert OptStr(fs, "comments") == Ok(t.comments) by { GetAt(fs, 4); }
    assert DefaultObjList(fs, "response") == Ok(t.response) by {
      GetAt(fs, 5);
      ObjListRoundTrip(t.response);
    }
    assert DefaultStrList(fs, "column_keys") == Ok(t.columnKeys) by {
      GetAt(fs, 6);
      StrListRoundTrip(t.columnKeys);
    }
  }

  /** A dumped table validates back to the same table. */
  lemma TableRoundTrip(t: Table, b: Builtins)
    ensures TableFromJson(TableToJson(t), b) == Ok(t)
  {
    TableCounts(t, b);
    TableContents(t, b);
  }

  /** The two tables of a dumped risk assessment read back as the tables dumped. */
  lemma RiskAssessmentTables(a: RiskAssessment, b: Builtins)
    ensures OptTable(RiskAssessmentToJson(a).fields, "severity_table", b) == Ok(a.severityTable)
    ensures OptTable(RiskAssessmentToJson(a).fields, "large_losses_table", b) == Ok(a.largeLossesTable)
  {
    var fs := RiskAssessmentToJson(a).fields;
    assert OptTable(fs, "severity_table", b) == Ok(a.severityTable) by {
      GetAt(fs, 0);
      if a.severityTable.Some? { TableRoundTrip(a.severityTable.value, b); }
    }
    assert OptTable(fs, "large_losses_table", b) == Ok(a.largeLossesTable) by {
      GetAt(fs, 1);
      if a.largeLossesTable.Some? { TableRoundTrip(a.largeLossesTable.value, b); }
    }
  }

  /** The county and threshold of a dumped risk assessment read back as dumped. */
  lemma RiskAssessmentFigures(a: RiskAssessment, b: Builtins)
    ensures ReqStr(RiskAssessmentToJson(a).fields, "county_code") == Ok(a.countyCode)
    ensures ReqFloat(RiskAssessmentToJson(a).fields, "min_loss_threshold", b) == Ok(a.minLossThreshold)
  {
    var fs := RiskAssessmentToJson(a).fields;
    assert ReqStr(fs, "county_code") == Ok(a.countyCode) by { GetAt(fs, 2); }
    assert ReqFloat(fs, "min_loss_threshold", b) == Ok(a.minLossThreshold) by { GetAt(fs, 3); }
  }

  /** The timestamps of a dumped risk assessment read back as dumped. */
  lemma RiskAssessmentStamps(a: RiskAssessment)
    ensures ReqStamp(RiskAssessmentToJson(a).fields, "cached_at") == Ok(a.cachedAt)
    ensures ReqStamp(RiskAssessmentToJson(a).fields, "cache_expires_at") == Ok(a.cacheExpiresAt)
  {
    var fs := RiskAssessmentToJson(a).fields;
    assert ReqStamp(fs, "cached_at") == Ok(a.cachedAt) by { GetAt(fs, 4); }
    assert ReqStamp(fs, "cache_expires_at") == Ok(a.cacheExpiresAt) by { GetAt(fs, 5); }
  }

  /** The raw answers of a dumped risk assessment read back as dumped. */
  lemma RiskAssessmentRaws(a: RiskAssessment)
    ensures GetOr(RiskAssessmentToJson(a).fields, "raw_severity", Null) == a.rawSeverity
    ensures GetOr(RiskAssessmentToJson(a).fields, "raw_large_losses", Null) == a.rawLargeLosses
  {
    var fs := RiskAssessmentToJson(a).fields;
    assert GetOr(fs, "raw_severity", Null) == a.rawSeverity by { GetAt(fs, 6); }
    assert GetOr(fs, "raw_large_losses", Null) == a.rawLargeLosses by { GetAt(fs, 7); }
  }

  /** A dumped risk assessment validates back to the same assessment. */
  lemma RiskAssessmentRoundTrip(a: RiskAssessment, b: Builtins)
    ensures RiskAssessmentFromJson(RiskAssessmentToJson(a), b) == Ok(a)
  {
    RiskAssessmentTables(a, b);
    RiskAssessmentFigures(a, b);
    RiskAssessmentStamps(a);
    RiskAssessmentRaws(a);
  }

  /** The state, county and year of a dumped claim row read back as dumped. */
  lemma ClaimRowKeys(r: ClaimRow, b: Builtins)
    ensures OptStr(ClaimRowToJson(r).fields, "state") == Ok(r.state)
    ensures ReqStr(ClaimRowToJson(r).fields, "county_code") == Ok(r.countyCode)
    ensures ReqInt(ClaimRowToJson(r).fields, "loss_year", b) == Ok(r.lossYear)
  {
    var fs := ClaimRowToJson(r).fields;
    assert OptStr(fs, "state") == Ok(r.state) by { GetAt(fs, 0); }
    assert ReqStr(fs, "county_code") == Ok(r.countyCode) by { GetAt(fs, 1); }
    assert ReqInt(fs, "loss_year", b) == Ok(r.lossYear) by { GetAt(fs, 2); }
  }

  /** The paid total, claim count and average of a dumped claim row read back as dumped. */
  lemma ClaimRowFigures(r: ClaimRow, b: Builtins)
    ensures ReqFloat(ClaimRowToJson(r).fields, "paid_total", b) == Ok(r.paidTotal)
    ensures ReqInt(ClaimRowToJson(r).fields, "claims_count", b) == Ok(r.claimsCount)
    ensures ReqFloat(ClaimRowToJson(r).fields, "avg_paid_per_claim", b) == Ok(r.avgPaidPerClaim)
  {
    var fs := ClaimRowToJson(r).fields;
    assert ReqFloat(fs, "paid_total", b) == Ok(r.paidTotal) by { GetAt(fs, 3); }
    assert ReqInt(fs, "claims_count", b) == Ok(r.claimsCount) by { GetAt(fs, 4); }
    assert ReqFloat(fs, "avg_paid_per_claim", b) == Ok(r.avgPaidPerClaim) by { GetAt(fs, 5); }
  }

  /** A dumped claim row validates back to the same row. */
  lemma ClaimRowRoundTrip(r: ClaimRow, b: Builtins)
    ensures ClaimRowFromJson(ClaimRowToJson(r), b) == Ok(r)
  {
    ClaimRowKeys(r, b);
    ClaimRowFigures(r, b);
  }

  lemma {:induction false} ClaimRowsRoundTrip(rows: seq<ClaimRow>, b: Builtins)
    ensures ClaimRowList(ClaimRowsJson(rows).items, b) == Ok(rows)
  {
    if |rows| > 0 {
      ClaimRowRoundTrip(rows[0], b);
      ClaimRowsRoundTrip(rows[1..], b);
      assert ClaimRowsJson(rows).items[1..] == ClaimRowsJson(rows[1..]).items;
      assert [rows[0]] + rows[1..] == rows;
    }
  }

  /** The rows and totals of a dumped property summary read back as dumped. */
  lemma PropertySummaryTotals(p: PropertySummary, b: Builtins)
    ensures GetOr(PropertySummaryToJson(p).fields, "rows", Null) == ClaimRowsJson(p.rows)
    ensures ReqInt(PropertySummaryToJson(p).fields, "total_counties", b) == Ok(p.totalCounties)
    ensures ReqInt(PropertySummaryToJson(p).fields, "total_claims", b) == Ok(p.totalClaims)
    ensures ReqFloat(PropertySummaryToJson(p).fields, "avg_paid_overall", b) == Ok(p.avgPaidOverall)
  {
    var fs := PropertySummaryToJson(p).fields;
    assert GetOr(fs, "rows", Null) == ClaimRowsJson(p.rows) by { GetAt(fs, 0); }
    assert ReqInt(fs, "total_counties", b) == Ok(p.totalCounties) by { GetAt(fs, 1); }
    assert ReqInt(fs, "total_claims", b) == Ok(p.totalClaims) by { GetAt(fs, 2); }
    assert ReqFloat(fs, "avg_paid_overall", b) == Ok(p.avgPaidOverall) by { GetAt(fs, 3); }
  }

  /** The timestamps and raw answer of a dumped property summary read back as dumped. */
  lemma PropertySummaryStamps(p: PropertySummary)
    ensures ReqStamp(PropertySummaryToJson(p).fields, "cached_at") == Ok(p.cachedAt)
    ensures ReqStamp(PropertySummaryToJson(p).fields, "cache_expires_at") == Ok(p.cacheExpiresAt)
    ensures GetOr(PropertySummaryToJson(p).fields, "raw_response", Null) == p.rawResponse
  {
    var fs := PropertySummaryToJson(p).fields;
    assert ReqStamp(fs, "cached_at") == Ok(p.cachedAt) by { GetAt(fs, 4); }
    assert ReqStamp(fs, "cache_expires_at") == Ok(p.cacheExpiresAt) by { GetAt(fs, 5); }
    assert GetOr(fs, "raw_response", Null) == p.rawResponse by { GetAt(fs, 6); }
  }

  /** A dumped property summary validates back to the same summary. */
  lemma PropertySummaryRoundTrip(p: PropertySummary, b: Builtins)
    ensures PropertySummaryFromJson(PropertySummaryToJson(p), b) == Ok(p)
  {
    PropertySummaryTotals(p, b);
    PropertySummaryStamps(p);
    ClaimRowsRoundTrip(p.rows, b);
  }

  /** The ZIP code, window and figures of dumped ZIP statistics read back as dumped. */
  lemma ZipStatsFigures(z: ZipStats, b: Builtins)
    ensures ReqStr(ZipStatsToJson(z).fields, "zip_code") == Ok(z.zipCode)
    ensures ReqInt(ZipStatsToJson(z).fields, "years", b) == Ok(z.years)
    ensures ReqInt(ZipStatsToJson(z).fields, "claim_frequency", b) == Ok(z.claimFrequency)
    ensures ReqFloat(ZipStatsToJson(z).fields, "avg_loss", b) == Ok(z.avgLoss)
  {
    var fs := ZipStatsToJson(z).fields;
    assert ReqStr(fs, "zip_code") == Ok(z.zipCode) by { GetAt(fs, 0); }
    assert ReqInt(fs, "years", b) == Ok(z.years) by { GetAt(fs, 1); }
    assert ReqInt(fs, "claim_frequency", b) == Ok(z.claimFrequency) by { GetAt(fs, 2); }
    assert ReqFloat(fs, "avg_loss", b) == Ok(z.avgLoss) by { GetAt(fs, 3); }
  }

  /** The timestamps and raw answer of dumped ZIP statistics read back as dumped. */
  lemma ZipStatsStamps(z: ZipStats)
    ensures ReqStamp(ZipStatsToJson(z).fields, "cached_at") == Ok(z.cachedAt)
    ensures ReqStamp(ZipStatsToJson(z).fields, "cache_expires_at") == Ok(z.cacheExpiresAt)
    ensures GetOr(ZipStatsToJson(z).fields, "raw_response", Null) == z.rawResponse
  {
    var fs := ZipStatsToJson(z).fields;
    assert ReqStamp(fs, "cached_at") == Ok(z.cachedAt) by { GetAt(fs, 4); }
    assert ReqStamp(fs, "cache_expires_at") == Ok(z.cacheExpiresAt) by { GetAt(fs, 5); }
    assert GetOr(fs, "raw_response", Null) == z.rawResponse by { GetAt(fs, 6); }
  }

  /** A dumped ZIP statistics record validates back to the same record. */
  lemma ZipStatsRoundTrip(z: ZipStats, b: Builtins)
    ensures ZipStatsFromJson(ZipStatsToJson(z), b) == Ok(z)
  {
    ZipStatsFigures(z, b);
    ZipStatsStamps(z);
  }

  /** The two spellings of the table's counts are both accepted, and the first
      spelling wins when both are present. */
  lemma TableAliases(status: string, n: int, m: int, b: Builtins)
    ensures TableFromJson(Obj([("status", Str(status)), ("columns", Int(n)), ("rows", Int(m))]), b)
         == Ok(Table(status, Some(n), Some(m)))
    ensures TableFromJson(Obj([("status", Str(status)), ("column_count", Int(n)), ("row_count", Int(m))]), b)
         == Ok(Table(status, Some(n), Some(m)))
    ensures TableFromJson(Obj([("status", Str(status)), ("column_count", Int(m)), ("columns", Int(n))]), b)
         == Ok(Table(status, Some(n), None))
  {
    var fs1 := [("status", Str(status)), ("columns", Int(n)), ("rows", Int(m))];
    assert ReqStr(fs1, "status") == Ok(status) by { GetAt(fs1, 0); }
    assert AliasInt(fs1, "columns", "column_count", b) == Ok(Some(n)) by { GetAt(fs1, 1); }
    assert AliasInt(fs1, "rows", "row_count", b) == Ok(Some(m)) by { GetAt(fs1, 2); }
    assert !HasKey(fs1, "summary") && !HasKey(fs1, "comments") by {
      Absent(fs1, "summary");
      Absent(fs1, "comments");
    }
    assert !HasKey(fs1, "response") && !HasKey(fs1, "column_keys") by {
      Absent(fs1, "response");
      Absent(fs1, "column_keys");
    }
    var fs2 := [("status", Str(status)), ("column_count", Int(n)), ("row_count", Int(m))];
    assert ReqStr(fs2, "status") == Ok(status) by { GetAt(fs2, 0); }
    assert AliasInt(fs2, "columns", "column_count", b) == Ok(Some(n)) by {
      Absent(fs2, "columns");
      GetAt(fs2, 1);
    }
    assert AliasInt(fs2, "rows", "row_count", b) == Ok(Some(m)) by {
      Absent(fs2, "rows");
      GetAt(fs2, 2);
    }
    assert !HasKey(fs2, "summary") && !HasKey(fs2, "comments") by {
      Absent(fs2, "summary");
      Absent(fs2, "comments");
    }
    assert !HasKey(fs2, "response") && !HasKey(fs2, "column_keys") by {
      Absent(fs2, "response");
      Absent(fs2, "column_keys");
    }
    var fs3 := [("status", Str(status)), ("column_count", Int(m)), ("columns", Int(n))];
    assert ReqStr(fs3, "status") == Ok(status) by { GetAt(fs3, 0); }
    assert AliasInt(fs3, "columns", "column_count", b) == Ok(Some(n)) by { GetAt(fs3, 2); }
    assert AliasInt(fs3, "rows", "row_count", b) == Ok(None) by {
      Absent(fs3, "rows");
      Absent(fs3, "row_count");
    }
    assert !HasKey(fs3, "summary") && !HasKey(fs3, "comments") by {
      Absent(fs3, "summary");
      Absent(fs3, "comments");
    }
    assert !HasKey(fs3, "response") && !HasKey(fs3, "column_keys") by {
      Absent(fs3, "response");
      Absent(fs3, "column_keys");
    }
  }
}
