# Agentic underwriting backend, modelled in Dafny

This project models the decision logic of the agentic underwriting backend. The backend is a FastAPI service: it assembles an underwriting case view from stored case documents, from rule agents, and from agents backed by Microsoft Fabric and Foundry. The model covers four groups of logic.

- **Fabric services and cache.** Three Fabric data services, all cached:
  - the property summary (function A);
  - ZIP claim statistics (function B);
  - the risk assessment (function C).

  Each reads a TTL cache keyed by its arguments unless `force_refresh` is set. Otherwise it asks the Fabric data agent, validates and aggregates the rows, and stores the result for 72 hours. The cache is a class. Its file directory is a map from file name to file contents. The clock is a field in seconds.
- **Underwriting rules.**
  - the guideline check (state appetite and the high-score flag);
  - the score-to-level mapping and the risk score;
  - the bind/review decision;
  - the choice of knowledge questions;
  - the copilot's small-talk recogniser and its replies.
- **Text cleaners.**
  - the two code-fence strippers;
  - the request-id reader;
  - the two-letter state reader of the Fabric router;
  - the CORS origin parser;
  - citation coercion;
  - the error envelope of the agent clients.
- **Small rules.**
  - the isochrone boundary as a closed GeoJSON ring;
  - the Azure Maps token cache with its 60-second early refresh;
  - the AI-decision rerun.

There is one Dafny module per source file. Three shared modules support them:
- `Wrappers`: `Option`, `Result` and `Call`. `Call` is the value a call returned, or the exception it raised.
- `Text`: Python's string methods.
- `Json`: Python's dynamic values. A dict is an ordered list of (key, value) pairs, because insertion order is observable.

Python's `int()`, `float()`, `repr` and `json.loads` are not modelled. They are bundled as abstract functions in a `Builtins` record that is passed as a parameter. Every network call is likewise a parameter holding what that call returned or raised:
- the Fabric data agent;
- the Foundry agents;
- the chat model;
- Azure Maps search;
- the token credential.

Timestamps are integers, in seconds.

Behaviour worth noting:
- **State fallback.** `_extract_state`'s fallback returns the first two capitals of the second-to-last part whenever it has at least two, not only when it has exactly two (`FabricRouter.Fallback`).
- **Case title.** `build_case_view` falls back through the stored title, then the property address, then "Case {id}" (`Conductor.TitleValue`).
- **FAIR Plan question.** A homeowners case whose coverage type is not a flood type, but names "FAIR" or mentions "TFPA", gets the FAIR Plan question: the check for it comes before the plain homeowners branch (`Conductor.FirstQueryRules`).
- **Cache key order.** The comment above `_get_cache_key` lists the state before the county. The code sorts the keyword arguments by name, so the county comes first, as `FabricCache.CacheKeyExample` shows. This is a stale comment, not a defect.

## Model

| member | source | states |
|---|---|---|
| GuidelineAgent.StateFlag | agentic-underwriting-backend/app/services/agents/guideline_agent.py:10-11 | the out-of-appetite flag begins "State " and is never the high-risk flag |
| GuidelineAgent.Address | agentic-underwriting-backend/app/services/agents/guideline_agent.py:7 | a missing or falsy property reads as the empty address; the read fails exactly when a truthy property is not a dict |
| GuidelineAgent.LastTwo | agentic-underwriting-backend/app/services/agents/guideline_agent.py:8 | `[-2:]` is the suffix of length two, or the whole of a shorter text |
| GuidelineAgent.GuidelineState | agentic-underwriting-backend/app/services/agents/guideline_agent.py:8 | a text address gives the last two characters of its stripped last comma part, or "XX" without a comma; any other value gives "XX" or the exception |
| GuidelineAgent.HighScore | agentic-underwriting-backend/app/services/agents/guideline_agent.py:12 | defined exactly when the score (1 when missing) is a number, and true exactly when it exceeds 0.9 |
| GuidelineAgent.FlagRules | agentic-underwriting-backend/app/services/agents/guideline_agent.py:9-13 | the state flag is raised iff the state is outside {IL, TX, WA, CA}, the score flag iff the score is high; at most two flags, the state flag first; no flags iff in appetite and not high |
| GuidelineAgent.GuidelineOutcome | agentic-underwriting-backend/app/services/agents/guideline_agent.py:6-17 | defined exactly when reading the address, the state and the score succeeds; passes iff there are no flags; at most two flags; the high-risk flag iff the score is high |
| GuidelineAgent.CheckGuidelines | agentic-underwriting-backend/app/services/agents/guideline_agent.py:6-17 | the appending loop yields exactly the flags of the two rules and passes iff there are none; it fails exactly when reading the address, the state or the score raises |
| GuidelineAgent.MissingScoreFlagged | agentic-underwriting-backend/app/services/agents/guideline_agent.py:12 | a risk dict without a score is flagged as high risk |
| GuidelineAgent.LastPartAfter | agentic-underwriting-backend/app/services/agents/guideline_agent.py:8 | `split(",")[-1]` is the text after the last comma |
| GuidelineAgent.StateFromLastPart | agentic-underwriting-backend/app/services/agents/guideline_agent.py:8 | the state depends only on the text after the last comma |
| GuidelineAgent.ZipCodeReadAsState | agentic-underwriting-backend/app/services/agents/guideline_agent.py:8-11 | on "123 Main St, Austin, TX, 78701" the rule reads "01", so that address is out of appetite |
| RiskAgent.DeriveLevel | agentic-underwriting-backend/app/services/agents/risk_agent.py:6-13 | no score has no level; Low iff score ≤ 0.33, Medium iff 0.33 < score ≤ 0.66, High iff score > 0.66 |
| RiskAgent.DeriveLevelMonotone | agentic-underwriting-backend/app/services/agents/risk_agent.py:6-13 | a higher score never maps to a lower level |
| RiskAgent.HeuristicBounds | agentic-underwriting-backend/app/services/agents/risk_agent.py:31-32 | the heuristic is at most 1.0, so the cap never changes it, and above 0.5 for a non-negative area and an age of at least one year |
| RiskAgent.HeuristicMonotone | agentic-underwriting-backend/app/services/agents/risk_agent.py:31 | an older or larger property never scores lower |
| RiskAgent.AiDecisionInfo | agentic-underwriting-backend/app/services/agents/risk_agent.py:22 | a missing or falsy decision reads as `{}`; the read fails exactly for a truthy value that is not a dict |
| RiskAgent.AgeYears | agentic-underwriting-backend/app/services/agents/risk_agent.py:19 | the age is at least 1 and at least 2025 − year, and is one of the two |
| RiskAgent.AssessRisk | agentic-underwriting-backend/app/services/agents/risk_agent.py:16-45 | succeeds exactly when the property and decision are dicts and `int()` accepts the year and area; the age is ≥ 1; the level is always `DeriveLevel(score)`; a numeric AI score is used as given, otherwise the heuristic capped at 1.0 |
| RiskAgent.Score | agentic-underwriting-backend/app/services/agents/risk_agent.py:25-32 | the numeric AI score when there is one, otherwise the heuristic, which is ≤ 1.0 |
| RiskAgent.Explanation | agentic-underwriting-backend/app/services/agents/risk_agent.py:27-33 | both explanation texts begin "Risk score " |
| RiskAgent.RiskFactorsEcho | agentic-underwriting-backend/app/services/agents/risk_agent.py:37-41 | the risk factors echo the age computed from the year read and the area read |
| RiskAgent.DefaultsGiveHigh | agentic-underwriting-backend/app/services/agents/risk_agent.py:17-35 | an empty case uses year 2000 and area 2000: age 25, score 0.8, level High |
| RiskAgent.HeuristicNeverLow | agentic-underwriting-backend/app/services/agents/risk_agent.py:30-35 | without a numeric AI score, a non-negative area never gives Low |
| RiskAgent.Heuristic | agentic-underwriting-backend/app/services/agents/risk_agent.py:31 | the area term saturates at 4000 sq ft and the age term at 20 years, where the heuristic reaches 1.0; with no area and no age it is at most 0.5 |
| RiskAgent.RiskScoreField | agentic-underwriting-backend/app/services/agents/risk_agent.py:42 | the returned dict carries the score under "score" |
| ExplainabilityAgent.Decide | agentic-underwriting-backend/app/services/agents/explainability_agent.py:31-39 | failing guidelines (missing "pass" is false) give NeedsReview at 0.7 with reasons = flags = the guideline flags and the fixed flagged justification; passing ones give AutoBind at 0.9 iff the score (1 when missing) ≤ 0.85, else NeedsReview at 0.75, with no reasons and the justification "Outcome {outcome} based on risk score {score} and guideline pass."; never Decline |
| ExplainabilityAgent.MissingScoreNeedsReview | agentic-underwriting-backend/app/services/agents/explainability_agent.py:36-37 | a passing check without a score gives NeedsReview at 0.75 |
| ExplainabilityAgent.MissingPassFails | agentic-underwriting-backend/app/services/agents/explainability_agent.py:32-35 | a guideline dict without "pass" or "flags" gives NeedsReview at 0.7 with no reasons |
| ExplainabilityAgent.FlaggedGuidelinesReviewed | agentic-underwriting-backend/app/services/agents/explainability_agent.py:32-35 | on the guideline check's own dict, a failing check gives NeedsReview whose reasons and flags are exactly its flags |
| ExplainabilityAgent.AutoBindExactly | agentic-underwriting-backend/app/services/agents/explainability_agent.py:31-38 | on the risk and guideline dicts the agents return, the decision is AutoBind exactly when the check passed and the score is ≤ 0.85 |
| FabricCache.BeforeIrreflexive | agentic-underwriting-backend/app/services/cache/fabric_cache.py:24 | Python's string order, which `sorted` uses, is irreflexive |
| FabricCache.BeforeTrans | agentic-underwriting-backend/app/services/cache/fabric_cache.py:24 | the string order is transitive |
| FabricCache.BeforeTotal | agentic-underwriting-backend/app/services/cache/fabric_cache.py:24 | any two different strings are ordered one way or the other |
| FabricCache.SortByName | agentic-underwriting-backend/app/services/cache/fabric_cache.py:24 | `sorted(kwargs.items())` is a permutation of the items |
| FabricCache.SortSorted | agentic-underwriting-backend/app/services/cache/fabric_cache.py:24 | with distinct keyword names the sorted items are strictly ordered by name |
| FabricCache.SortedUnique | agentic-underwriting-backend/app/services/cache/fabric_cache.py:24 | two strictly sorted lists with the same elements are equal |
| FabricCache.SortOrderIndependent | agentic-underwriting-backend/app/services/cache/fabric_cache.py:24 | the sorted items do not depend on the order the keyword arguments were passed in |
| FabricCache.Values | agentic-underwriting-backend/app/services/cache/fabric_cache.py:24-26 | only truthy values are kept |
| FabricCache.CacheKey | agentic-underwriting-backend/app/services/cache/fabric_cache.py:20-27 | the key begins "fabric_{function_id}_{case_id}" and ends in ".json" |
| FabricCache.CacheKeyOrderIndependent | agentic-underwriting-backend/app/services/cache/fabric_cache.py:24 | the key does not depend on the order the keyword arguments were passed in |
| FabricCache.CacheKeySkipsFalsy | agentic-underwriting-backend/app/services/cache/fabric_cache.py:25 | a keyword argument with a falsy value leaves the key unchanged |
| FabricCache.CacheKeyExample | agentic-underwriting-backend/app/services/cache/fabric_cache.py:20-27 | state TX and county 48229 for case C-123 give "fabric_A_C-123_48229_TX.json": county sorts first |
| FabricCache.GetCacheKey | agentic-underwriting-backend/app/services/cache/fabric_cache.py:20-27 | the loop appending the truthy sorted values builds exactly `CacheKey` |
| FabricCache.ExpiryOf | agentic-underwriting-backend/app/services/cache/fabric_cache.py:53 | a dict without "cache_expires_at" expires at 2000-01-01; a non-dict document cannot be read |
| FabricCache.Find | agentic-underwriting-backend/app/services/cache/fabric_cache.py:44-64 | a miss iff there is no file; a hit only for a readable entry whose expiry the clock has not passed; expired only strictly after the expiry; every other case is a read error |
| FabricCache.Cached | agentic-underwriting-backend/app/services/cache/fabric_cache.py:44-64 | the read returns an entry exactly on a hit, and then the stored document |
| FabricCache.Payload | agentic-underwriting-backend/app/services/cache/fabric_cache.py:89-96 | the payload records the function id, the case id and the keyword arguments as cache_params |
| FabricCache.PayloadFields | agentic-underwriting-backend/app/services/cache/fabric_cache.py:86-96 | the written payload holds the data, the write time, and an expiry ttl hours later |
| FabricCache.SetThenGet | agentic-underwriting-backend/app/services/cache/fabric_cache.py:86-96 | after a write, a read up to the expiry returns the payload, whose response_data is the data written |
| FabricCache.SetThenExpire | agentic-underwriting-backend/app/services/cache/fabric_cache.py:53-57 | after the expiry the same entry reads as expired and the read deletes it |
| FabricCache.ExpiryIsStrict | agentic-underwriting-backend/app/services/cache/fabric_cache.py:54 | an entry is a hit exactly while now ≤ expiry, and expired exactly when now > expiry |
| FabricCache.LegacyEntryExpired | agentic-underwriting-backend/app/services/cache/fabric_cache.py:53-57 | an entry without an expiry is expired at any time after 2000-01-01 |
| FabricCache.Cache.constructor | agentic-underwriting-backend/app/services/cache/fabric_cache.py:15-16 | the directory starts empty |
| FabricCache.Cache.Tick | agentic-underwriting-backend/app/services/cache/fabric_cache.py:54 | only the clock advances |
| FabricCache.Cache.GetCachedResponse | agentic-underwriting-backend/app/services/cache/fabric_cache.py:30-64 | returns the payload of a hit and None otherwise; deletes exactly an expired file; never raises |
| FabricCache.Cache.SetCachedResponse | agentic-underwriting-backend/app/services/cache/fabric_cache.py:67-103 | stores the payload under the key when the directory is writable, and otherwise leaves it unchanged and raises nothing |
| FabricCache.Cache.InvalidateCache | agentic-underwriting-backend/app/services/cache/fabric_cache.py:106-121 | returns whether the file existed; afterwards it is absent and every other file is unchanged |
| FabricRiskAssessment.CoerceInt | agentic-underwriting-backend/app/services/agents/fabric_risk_assessment.py:218-226 | None gives None; an int (a bool included) is kept; any other value goes through `int()`, and a list or dict gives None |
| FabricRiskAssessment.DictRows | agentic-underwriting-backend/app/services/agents/fabric_risk_assessment.py:135-140 | exactly the dict rows are kept, never more rows than given |
| FabricRiskAssessment.DictRowsConcat | agentic-underwriting-backend/app/services/agents/fabric_risk_assessment.py:135-140 | row filtering keeps the original order: it distributes over concatenation |
| FabricRiskAssessment.FlattenMembers | agentic-underwriting-backend/app/services/agents/fabric_risk_assessment.py:166-167 | the scanned keys are exactly the keys of some row |
| FabricRiskAssessment.Dedup | agentic-underwriting-backend/app/services/agents/fabric_risk_assessment.py:168-169 | the kept keys are the scanned ones, each once |
| FabricRiskAssessment.DedupFirstOccurrence | agentic-underwriting-backend/app/services/agents/fabric_risk_assessment.py:168-169 | the kept keys are ordered by first occurrence |
| FabricRiskAssessment.DistinctKeysSpec | agentic-underwriting-backend/app/services/agents/fabric_risk_assessment.py:164-170 | every key of any row appears exactly once, ordered by first occurrence scanning rows then keys |
| FabricRiskAssessment.DeriveColumnKeys | agentic-underwriting-backend/app/services/agents/fabric_risk_assessment.py:164-170 | the two nested loops compute exactly `DistinctKeys` |
| FabricRiskAssessment.KeyStrings | agentic-underwriting-backend/app/services/agents/fabric_risk_assessment.py:144 | never more keys than given; with `KeyStringsOne` and `KeyStringsConcat` below, exactly the str, int, float and bool keys, stringified, in order |
| FabricRiskAssessment.KeyStringsOne | agentic-underwriting-backend/app/services/agents/fabric_risk_assessment.py:144 | a single str, int, float or bool key becomes `[str(key)]`; a list, dict or `None` key is dropped |
| FabricRiskAssessment.KeyStringsConcat | agentic-underwriting-backend/app/services/agents/fabric_risk_assessment.py:144 | the keys of two lists are the keys of each, in order |
| FabricRiskAssessment.KeyStringsOfStrings | agentic-underwriting-backend/app/services/agents/fabric_risk_assessment.py:144 | a list of strings is kept as it is |
| FabricRiskAssessment.StatusOf | agentic-underwriting-backend/app/services/agents/fabric_risk_assessment.py:131 | the status is the truthy stored value or "unknown" |
| FabricRiskAssessment.RowCount | agentic-underwriting-backend/app/services/agents/fabric_risk_assessment.py:152 | the coerced "rows" value unless it is None or 0, in which case the number of kept rows |
| FabricRiskAssessment.AgentTable | agentic-underwriting-backend/app/services/agents/fabric_risk_assessment.py:127-161 | None for a non-dict; otherwise a table exactly when status, summary and comments validate, with status defaulting to "unknown", the dict rows in order, the given or derived column keys, and the coerced counts |
| FabricRiskAssessment.KeepDictRows | agentic-underwriting-backend/app/services/agents/fabric_risk_assessment.py:133-140 | the row loop keeps exactly `DictRows` |
| FabricRiskAssessment.BuildAgentTable | agentic-underwriting-backend/app/services/agents/fabric_risk_assessment.py:127-161 | the imperative build equals `AgentTable` |
| FabricRiskAssessment.TableHasRowsSpec | agentic-underwriting-backend/app/services/agents/fabric_risk_assessment.py:173-176 | a built agent table has rows exactly when its response list holds a dict; a table rebuilt from legacy rows always has rows |
| FabricRiskAssessment.LegacyTable | agentic-underwriting-backend/app/services/agents/fabric_risk_assessment.py:188-196 | a non-empty list of dict rows becomes a "success" table whose counts are the number of rows and the first row's width and whose keys are derived; anything else raises |
| FabricRiskAssessment.UpgradeTable | agentic-underwriting-backend/app/services/agents/fabric_risk_assessment.py:186-198 | one table step raises exactly when the table is absent, the raw response builds no table, and the truthy legacy rows are not a list of dicts; otherwise the table key is present afterwards |
| FabricRiskAssessment.Upgraded | agentic-underwriting-backend/app/services/agents/fabric_risk_assessment.py:179-215 | a non-dict payload becomes `{}` |
| FabricRiskAssessment.UpgradeCachedPayload | agentic-underwriting-backend/app/services/agents/fabric_risk_assessment.py:179-215 | the copy-assign-pop method equals `Upgraded` |
| FabricRiskAssessment.UpgradeTableKeys | agentic-underwriting-backend/app/services/agents/fabric_risk_assessment.py:186-210 | after one table step the table key is present, an existing table is kept, and other keys are unchanged |
| FabricRiskAssessment.UpgradedSpec | agentic-underwriting-backend/app/services/agents/fabric_risk_assessment.py:179-215 | the upgrade gives both table keys, keeps tables already there, removes severity_rows and large_losses, and leaves every other key unchanged |
| FabricRiskAssessment.UpgradeCurrent | agentic-underwriting-backend/app/services/agents/fabric_risk_assessment.py:179-215 | a payload in the current layout is left as it is |
| FabricRiskAssessment.Fresh | agentic-underwriting-backend/app/services/agents/fabric_risk_assessment.py:64-118 | an assessment exactly when the agent returned a dict and one of the two tables built from its "severity" and "large_losses" entries has rows; its tables are those built tables, its raw fields those entries, cached_at = now, cache_expires_at = cached_at + 72 h, and county and threshold are echoed; a failed fetch gives None |
| FabricRiskAssessment.FromCache | agentic-underwriting-backend/app/services/agents/fabric_risk_assessment.py:53-59 | a cache hit is never None: it validates or raises, and an upgrade that raises makes the read raise |
| FabricRiskAssessment.NoRowsNoAssessment | agentic-underwriting-backend/app/services/agents/fabric_risk_assessment.py:78-82 | when neither table has rows the result is None |
| FabricRiskAssessment.CachedAssessmentRoundTrip | agentic-underwriting-backend/app/services/agents/fabric_risk_assessment.py:53-59 | an assessment stored by the fetch path is read back from the cache as itself |
| FabricRiskAssessment.StoredAssessmentServed | agentic-underwriting-backend/app/services/agents/fabric_risk_assessment.py:53-59 | within 72 hours of being stored, an assessment is a cache hit that returns itself |
| FabricRiskAssessment.FetchRiskAssessment | agentic-underwriting-backend/app/services/agents/fabric_risk_assessment.py:64-112 | returns `Fresh` and writes the assessment under the key exactly when there is one and the directory is writable |
| FabricRiskAssessment.LoadCachedAssessment | agentic-underwriting-backend/app/services/agents/fabric_risk_assessment.py:57-59 | the hit path: response_data (or the entry) upgraded and validated, failures raising |
| FabricRiskAssessment.GetRiskAssessment | agentic-underwriting-backend/app/services/agents/fabric_risk_assessment.py:33-118 | without force_refresh, a non-empty cache hit is returned with no fetch and no write; otherwise the fetch path runs and caches its result |
| FabricRiskAssessment.RefreshRiskAssessment | agentic-underwriting-backend/app/services/agents/fabric_risk_assessment.py:121-124 | the entry is dropped, then the fetch always runs |
| FabricPropertySummary.ValidRows | agentic-underwriting-backend/app/services/agents/fabric_property_summary.py:71-78 | every kept row is the validation of some input row, never more rows than given |
| FabricPropertySummary.ValidRowsConcat | agentic-underwriting-backend/app/services/agents/fabric_property_summary.py:71-78 | skipping invalid rows keeps the order: it distributes over concatenation |
| FabricPropertySummary.ValidRowsKeep | agentic-underwriting-backend/app/services/agents/fabric_property_summary.py:71-78 | every row that validates is kept |
| FabricPropertySummary.ParseRows | agentic-underwriting-backend/app/services/agents/fabric_property_summary.py:69-78 | the validating loop keeps exactly `ValidRows` |
| FabricPropertySummary.Counties | agentic-underwriting-backend/app/services/agents/fabric_property_summary.py:85 | the set of county codes: exactly the codes of the rows, at most one per row and at least one when there are rows |
| FabricPropertySummary.SumClaims | agentic-underwriting-backend/app/services/agents/fabric_property_summary.py:86 | the total claim count is never negative when no row's count is |
| FabricPropertySummary.SumPaid | agentic-underwriting-backend/app/services/agents/fabric_property_summary.py:89 | the total paid is never negative when no row's amount is |
| FabricPropertySummary.AvgPaid | agentic-underwriting-backend/app/services/agents/fabric_property_summary.py:90 | with claims the average times the claim count is the total paid; without claims it is 0; the same guarded average gives avg_loss of the ZIP statistics |
| FabricPropertySummary.Summarize | agentic-underwriting-backend/app/services/agents/fabric_property_summary.py:85-101 | total_counties is the number of distinct county codes (between 1 and the row count when there are rows), total_claims the sum of claims_count, avg_paid_overall the guarded quotient, and the expiry 72 h after cached_at |
| FabricPropertySummary.Fresh | agentic-underwriting-backend/app/services/agents/fabric_property_summary.py:54-117 | a failed fetch, a non-dict answer, status "error" or "no_data", or no valid row gives None; otherwise the summary of the valid rows |
| FabricPropertySummary.FromCache | agentic-underwriting-backend/app/services/agents/fabric_property_summary.py:43-47 | a cached summary is used only when the entry has a response_data dict, and is that dict validated |
| FabricPropertySummary.StoredSummaryServed | agentic-underwriting-backend/app/services/agents/fabric_property_summary.py:43-47 | within 72 hours of being stored, a summary is a cache hit that returns itself |
| FabricPropertySummary.FetchPropertySummary | agentic-underwriting-backend/app/services/agents/fabric_property_summary.py:54-113 | returns `Fresh` and writes it under the (state, county) key exactly when there is one and the directory is writable |
| FabricPropertySummary.GetPropertySummary | agentic-underwriting-backend/app/services/agents/fabric_property_summary.py:43-117 | without force_refresh, a valid cached entry is returned with no fetch; an invalid one falls through to the fetch |
| FabricPropertySummary.RefreshPropertySummary | agentic-underwriting-backend/app/services/agents/fabric_property_summary.py:120-123 | the (state, county) entry is dropped, then the fetch always runs |
| FabricZipStats.RowFigures | agentic-underwriting-backend/app/services/agents/fabric_zip_stats.py:77-79 | a row's figures exist only for a dict row |
| FabricZipStats.WeightedIsProduct | agentic-underwriting-backend/app/services/agents/fabric_zip_stats.py:81 | the paid amount one row contributes is avg_loss × claims_count |
| FabricZipStats.WeightedMonotone | agentic-underwriting-backend/app/services/agents/fabric_zip_stats.py:81 | a larger average over the same non-negative count contributes at least as much |
| FabricZipStats.WeightedAdd | agentic-underwriting-backend/app/services/agents/fabric_zip_stats.py:81 | contributions over two non-negative counts add up |
| FabricZipStats.ZipTotalsDefined | agentic-underwriting-backend/app/services/agents/fabric_zip_stats.py:76-81 | the aggregation succeeds exactly when no row raises |
| FabricZipStats.ZipTotalsStaysFailed | agentic-underwriting-backend/app/services/agents/fabric_zip_stats.py:76-81 | once a prefix raises, the whole loop raises |
| FabricZipStats.CountlessRowAddsNothing | agentic-underwriting-backend/app/services/agents/fabric_zip_stats.py:77-79 | a row without claims_count counts zero claims and adds nothing to the paid total |
| FabricZipStats.AppendRow | agentic-underwriting-backend/app/services/agents/fabric_zip_stats.py:76-81 | one more row adds its count to the claims and avg × count to the paid total |
| FabricZipStats.ZipTotalsStep | agentic-underwriting-backend/app/services/agents/fabric_zip_stats.py:76-81 | one loop step adds the row's count and weighted average |
| FabricZipStats.RowRaisesStops | agentic-underwriting-backend/app/services/agents/fabric_zip_stats.py:76-81 | a row that raises ends the loop with the exception, whatever follows |
| FabricZipStats.BoundsStep | agentic-underwriting-backend/app/services/agents/fabric_zip_stats.py:76-81 | a step keeps the paid total between lo and hi times the claim total |
| FabricZipStats.ZipTotalsBounds | agentic-underwriting-backend/app/services/agents/fabric_zip_stats.py:76-81 | when every row's average lies in [lo, hi] with a non-negative count, the paid total lies between lo and hi times the claim total |
| FabricZipStats.AvgBetween | agentic-underwriting-backend/app/services/agents/fabric_zip_stats.py:83 | the guarded average of such a total lies in [lo, hi] |
| FabricZipStats.AggregateZipRows | agentic-underwriting-backend/app/services/agents/fabric_zip_stats.py:73-81 | the accumulator loop computes exactly `ZipTotals` and stops at the first row that raises |
| FabricZipStats.FromCache | agentic-underwriting-backend/app/services/agents/fabric_zip_stats.py:49-50 | a cache hit is validated outside the try block, so a failure is raised |
| FabricZipStats.Fresh | agentic-underwriting-backend/app/services/agents/fabric_zip_stats.py:55-111 | a failed fetch, "error" or "no_data" gives None; otherwise zip_code and years are echoed, claim_frequency is the summed counts, avg_loss the guarded weighted average, and the expiry 72 h after cached_at |
| FabricZipStats.AvgLossWithinRowAverages | agentic-underwriting-backend/app/services/agents/fabric_zip_stats.py:76-83 | when every row's average loss lies in [lo, hi], so does the reported avg_loss; it is 0.0 when no claims are counted |
| FabricZipStats.EmptyResponseIsZero | agentic-underwriting-backend/app/services/agents/fabric_zip_stats.py:72-83 | an empty response is a success with zero claims and a zero average |
| FabricZipStats.StoredStatsServed | agentic-underwriting-backend/app/services/agents/fabric_zip_stats.py:44-50 | within 72 hours of being stored, the statistics are a cache hit that return themselves |
| FabricZipStats.FetchZipStats | agentic-underwriting-backend/app/services/agents/fabric_zip_stats.py:55-107 | returns `Fresh` and writes it under the key (zip_code, "{years}y") exactly when there are statistics and the directory is writable |
| FabricZipStats.GetZipStats | agentic-underwriting-backend/app/services/agents/fabric_zip_stats.py:44-111 | without force_refresh, a non-empty cache hit is validated and returned with no fetch; otherwise the fetch runs |
| FabricZipStats.RefreshZipStats | agentic-underwriting-backend/app/services/agents/fabric_zip_stats.py:114-117 | the entry is dropped, then the fetch always runs |
| Schemas.DecisionOutcomeFromName | agentic-underwriting-backend/app/models/schemas.py:121 | the `DecisionOutput.outcome` literal is accepted exactly for AutoBind, NeedsReview and Decline, and names itself |
| Schemas.AiOutcomeFromName | agentic-underwriting-backend/app/models/schemas.py:106 | the `AiDecision.outcome` literal is accepted exactly for AUTO_BIND, REFER and DECLINE |
| Schemas.ComplianceCheckFromName | agentic-underwriting-backend/app/models/schemas.py:114 | the compliance literal is accepted exactly for PASSED and FLAGGED |
| Schemas.StepKindFromName | agentic-underwriting-backend/app/models/schemas.py:86 | the timeline step literal is accepted exactly for PREFILL, ENRICH, SCORE and DECIDE |
| Schemas.DecisionTypeFromName | agentic-underwriting-backend/app/models/schemas.py:130 | the decision type literal is accepted exactly for AI_APPROVED and HUMAN_REVIEW |
| Schemas.LobFromName | agentic-underwriting-backend/app/models/schemas.py:146 | the line of business is accepted exactly for Homeowners, Property, Auto and CommercialProperty |
| Schemas.LiteralNamesRoundTrip | agentic-underwriting-backend/app/models/schemas.py:86-146 | every literal's name parses back to that literal |
| Schemas.ClaimRowFromJson | agentic-underwriting-backend/app/models/schemas.py:7-14 | a valid row came from a dict holding every required field, whose county_code is the row's county code |
| Schemas.TableFromJson | agentic-underwriting-backend/app/models/schemas.py:39-54 | a valid table came from a dict whose status is the table's; a present response or column_keys is the list of dicts or strings the table holds, an absent one gives the empty list |
| Schemas.RiskAssessmentFromJson | agentic-underwriting-backend/app/models/schemas.py:57-66 | a valid assessment came from a dict holding its county code, the threshold and both timestamps; the raw answers default to None |
| Schemas.PropertySummaryFromJson | agentic-underwriting-backend/app/models/schemas.py:17-25 | a valid summary came from a dict whose rows entry is a list with one item per row, holding the totals and both timestamps |
| Schemas.ZipStatsFromJson | agentic-underwriting-backend/app/models/schemas.py:28-36 | valid statistics came from a dict holding the ZIP code, the window, the figures and both timestamps |
| Schemas.CitationFromJson | agentic-underwriting-backend/app/models/schemas.py:69-73 | a valid citation came from a dict holding its manual and a score |
| Schemas.InsightFromJson | agentic-underwriting-backend/app/models/schemas.py:76-81 | a valid insight came from a dict holding its question, answer and generation time as strings and a citation list with one item per citation |
| Schemas.TimelineStepFromJson | agentic-underwriting-backend/app/models/schemas.py:84-90 | a valid step came from a dict holding its id, title and description, and its step as one of the four literal names |
| Schemas.Defaults | agentic-underwriting-backend/app/models/schemas.py:39-147 | a table defaults to no rows, no column keys and no counts, no summary and no comments; a decision to no reasons and no flags; a case context to Homeowners and render_case; a case view to decision type HUMAN_REVIEW and no title, risk level, address, AI decision, insights or Fabric data |
| Schemas.ClaimRowList | agentic-underwriting-backend/app/models/schemas.py:19 | validation fails exactly when some item fails; otherwise one row per item, row i being item i validated |
| Schemas.ClaimRowsJson | agentic-underwriting-backend/app/models/schemas.py:19 | the dump of the rows has one entry per row, each that row's dump |
| Schemas.CitationList | agentic-underwriting-backend/app/models/schemas.py:79 | validation fails exactly when some item fails; otherwise one citation per item, citation i being item i validated |
| Schemas.TimelineList | agentic-underwriting-backend/app/models/schemas.py:115 | validation fails exactly when some item fails; otherwise one step per item, step i being item i validated |
| Schemas.ContributionList | agentic-underwriting-backend/app/models/schemas.py:116 | validation fails exactly when some item fails; otherwise one entry per item, entry i being item i validated |
| Schemas.AiDecisionFromJson | agentic-underwriting-backend/app/models/schemas.py:105-117 | a validated decision came from an object whose outcome entry is the outcome's literal, and whose compliance entry is absent or None exactly when the compliance check is |
| Schemas.AiDecisionStamps | agentic-underwriting-backend/app/models/schemas.py:109-113 | the validation time and decision time are those entries of the validated object |
| Schemas.DecisionOutputFromJson | agentic-underwriting-backend/app/models/schemas.py:120-125 | a validated decision output came from an object whose outcome entry is its literal |
| Schemas.TableCounts | agentic-underwriting-backend/app/models/schemas.py:42-50 | the status and the two counts of a dumped table read back as they were |
| Schemas.TableContents | agentic-underwriting-backend/app/models/schemas.py:51-54 | the summary, comments, rows and column keys of a dumped table read back as they were |
| Schemas.TableRoundTrip | agentic-underwriting-backend/app/models/schemas.py:39-54 | a dumped table validates back to the same table |
| Schemas.TableAliases | agentic-underwriting-backend/app/models/schemas.py:43-50 | the counts are read under "columns"/"rows" and under "column_count"/"row_count", and the first alias wins |
| Schemas.RiskAssessmentTables | agentic-underwriting-backend/app/models/schemas.py:59-60 | the two tables of a dumped risk assessment read back as they were |
| Schemas.RiskAssessmentFigures | agentic-underwriting-backend/app/models/schemas.py:61-62 | the county and loss threshold read back as they were |
| Schemas.RiskAssessmentStamps | agentic-underwriting-backend/app/models/schemas.py:63-64 | the cache timestamps read back as they were |
| Schemas.RiskAssessmentRaws | agentic-underwriting-backend/app/models/schemas.py:65-66 | the raw answers read back as they were |
| Schemas.RiskAssessmentRoundTrip | agentic-underwriting-backend/app/models/schemas.py:57-66 | a dumped risk assessment validates back to the same assessment |
| Schemas.ClaimRowKeys | agentic-underwriting-backend/app/models/schemas.py:9-11 | the state, county and year of a dumped claim row read back as they were |
| Schemas.ClaimRowFigures | agentic-underwriting-backend/app/models/schemas.py:12-14 | the paid total, claim count and average of a dumped row read back as they were |
| Schemas.ClaimRowRoundTrip | agentic-underwriting-backend/app/models/schemas.py:7-14 | a dumped claim row validates back to the same row |
| Schemas.ClaimRowsRoundTrip | agentic-underwriting-backend/app/models/schemas.py:19 | a dumped row list validates back to the same list |
| Schemas.PropertySummaryTotals | agentic-underwriting-backend/app/models/schemas.py:19-22 | the rows and totals of a dumped property summary read back as they were |
| Schemas.PropertySummaryStamps | agentic-underwriting-backend/app/models/schemas.py:23-25 | the timestamps and the raw answer read back as they were |
| Schemas.PropertySummaryRoundTrip | agentic-underwriting-backend/app/models/schemas.py:17-25 | a dumped property summary validates back to the same summary |
| Schemas.ZipStatsFigures | agentic-underwriting-backend/app/models/schemas.py:30-33 | the ZIP code, window and figures of dumped ZIP statistics read back as they were |
| Schemas.ZipStatsStamps | agentic-underwriting-backend/app/models/schemas.py:34-36 | the timestamps and the raw answer read back as they were |
| Schemas.ZipStatsRoundTrip | agentic-underwriting-backend/app/models/schemas.py:28-36 | dumped ZIP statistics validate back to the same record |
| FabricRouter.MatchAt | agentic-underwriting-backend/app/routers/fabric.py:88 | a match of `,\s*([A-Z]{2})` at a position starts with a comma and yields two ASCII capitals |
| FabricRouter.Search | agentic-underwriting-backend/app/routers/fabric.py:88-89 | `re.search` yields two ASCII capitals when it finds anything |
| FabricRouter.SearchNone | agentic-underwriting-backend/app/routers/fabric.py:89 | the search finds nothing exactly when no position matches |
| FabricRouter.SearchLeftmost | agentic-underwriting-backend/app/routers/fabric.py:89 | a found match is the match at the leftmost matching position |
| FabricRouter.SearchSkips | agentic-underwriting-backend/app/routers/fabric.py:89 | positions without a comma never match |
| FabricRouter.MatchAtCapitals | agentic-underwriting-backend/app/routers/fabric.py:88 | a comma, a space and two capitals match, giving the capitals |
| FabricRouter.MatchAtNoCapitals | agentic-underwriting-backend/app/routers/fabric.py:88 | a comma, a space and anything but two capitals do not match |
| FabricRouter.Uppers | agentic-underwriting-backend/app/routers/fabric.py:98 | only uppercase characters, no more than the text has; with `UppersOne` and `UppersConcat` below, every uppercase character of the text, in order |
| FabricRouter.UppersOne | agentic-underwriting-backend/app/routers/fabric.py:98 | a single character is kept exactly when it is uppercase |
| FabricRouter.UppersConcat | agentic-underwriting-backend/app/routers/fabric.py:98 | the capitals of two texts are the capitals of each, in order |
| FabricRouter.Fallback | agentic-underwriting-backend/app/routers/fabric.py:94-101 | with fewer than three comma parts it is ""; otherwise it is two characters exactly when the second-to-last stripped part holds at least two capitals, and then they are the first two |
| FabricRouter.ExtractState | agentic-underwriting-backend/app/routers/fabric.py:83-101 | always "" or two uppercase characters: the regular-expression match when there is one, else the fallback |
| FabricRouter.ExtractStateExample | agentic-underwriting-backend/app/routers/fabric.py:85 | "123 Main St, Austin, TX, 78701" gives "TX" |
| Conductor.CoerceAiDecision | agentic-underwriting-backend/app/services/conductor.py:11-17 | a falsy raw value gives None; otherwise the validated decision, or None exactly when validation fails |
| Conductor.LowerText | agentic-underwriting-backend/app/services/conductor.py:32 | `.lower()` is defined exactly on strings |
| Conductor.PyIn | agentic-underwriting-backend/app/services/conductor.py:34 | `in` on a string is the substring test; it raises exactly on values other than strings, lists and dicts |
| Conductor.FirstQueryRules | agentic-underwriting-backend/app/services/conductor.py:31-38 | for a string coverage type: the FAIR Plan question exactly when "FAIR"/"TFPA" occur and the case is not a homeowners flood case; the NFIP question exactly for homeowners that are flood cases or not FAIR; none exactly for other lines that are not FAIR |
| Conductor.FirstQuery | agentic-underwriting-backend/app/services/conductor.py:31-38 | a string coverage type never raises; the first question, when there is one, is the NFIP or the FAIR Plan question; a homeowners case always gets one |
| Conductor.FloodCase | agentic-underwriting-backend/app/services/conductor.py:48 | the duplicate-policy test is "flood" in the lowered line of business or coverage type |
| Conductor.DistinctQueries | agentic-underwriting-backend/app/services/conductor.py:33-49 | the four question texts differ |
| Conductor.QueryPlan | agentic-underwriting-backend/app/services/conductor.py:40-56 | one to three questions, always the ICC one; the first question first (the ICC one when there is none); the duplicate-policy question last for a flood case |
| Conductor.QueryPlanShape | agentic-underwriting-backend/app/services/conductor.py:40-56 | the questions are distinct, so the duplicate-policy question is in the list exactly for a flood case |
| Conductor.KnowledgeQueriesShape | agentic-underwriting-backend/app/services/conductor.py:20-56 | a case's question list has one to three questions, always the ICC one, begins with the NFIP, FAIR Plan or ICC question, and holds the duplicate-policy question exactly for a flood case |
| Conductor.GenerateKnowledgeQueries | agentic-underwriting-backend/app/services/conductor.py:20-56 | the method returns exactly `KnowledgeQueries` of the case |
| Conductor.Kept | agentic-underwriting-backend/app/services/conductor.py:92-95 | a truthy answer that validates gives exactly its validated insight; a failed call, a falsy answer or one that does not validate gives nothing |
| Conductor.KeepAnswer | agentic-underwriting-backend/app/services/conductor.py:92-95 | the loop body keeps exactly `Kept` of one answer |
| Conductor.Insights | agentic-underwriting-backend/app/services/conductor.py:88-98 | no more insights than questions |
| Conductor.InsightsAppend | agentic-underwriting-backend/app/services/conductor.py:90-98 | the insights of two question lists are the insights of each, in order |
| Conductor.InsightsValidated | agentic-underwriting-backend/app/services/conductor.py:92-95 | every insight kept is the validation of the answer to one of the questions |
| Conductor.InsightsSnoc | agentic-underwriting-backend/app/services/conductor.py:90-98 | one more question adds what is kept of its answer |
| Conductor.InsightsKeepUseful | agentic-underwriting-backend/app/services/conductor.py:90-95 | every question whose answer is kept contributes its validated insight, placed right after the insights of the earlier questions |
| Conductor.InsightsOrder | agentic-underwriting-backend/app/services/conductor.py:90-95 | the insight of a kept earlier answer comes before everything later questions contribute |
| Conductor.CollectInsights | agentic-underwriting-backend/app/services/conductor.py:88-98 | the loop keeps exactly `Insights` of the questions |
| Conductor.TitleValue | agentic-underwriting-backend/app/services/conductor.py:83 | the stored title, else the property address, else "Case {id}"; always truthy |
| Conductor.DecisionTypeValue | agentic-underwriting-backend/app/services/conductor.py:84 | "HUMAN_REVIEW" when absent; otherwise the stored literal |
| Conductor.CaseDecision | agentic-underwriting-backend/app/services/conductor.py:65 | a truthy stored decision is validated and wins; otherwise the explainability agent decides |
| Conductor.OrElse | agentic-underwriting-backend/app/services/conductor.py:70-71 | `case_doc.get(k) or fallback`: the stored value when truthy, else the fallback |
| Conductor.BuildCaseView | agentic-underwriting-backend/app/services/conductor.py:59-113 | a view is built exactly when every step succeeds: risk, guidelines, decision, summary and bullets, property, title, decision type, address and the question plan (`ViewBuilds`); it carries the case id, the four actions, the risk level, title, address, decision type, AI decision, summary, bullets and the decision chosen above; its insights are `Insights` of `KnowledgeQueries`, or None when none is kept; no Fabric data |
| Copilot.BlankIsNotSmallTalk | agentic-underwriting-backend/app/routers/copilot.py:33-36 | an empty or whitespace-only message is never small talk |
| Copilot.CleanOfCleanText | agentic-underwriting-backend/app/routers/copilot.py:34 | a stripped lower-case message is its own cleaned text |
| Copilot.IsSmallTalk | agentic-underwriting-backend/app/routers/copilot.py:33-42 | a message shorter than two characters once stripped is never small talk |
| Copilot.SmallTalkIgnoresPadding | agentic-underwriting-backend/app/routers/copilot.py:33-42 | whitespace around a message does not change whether it is small talk |
| Copilot.SmallTalkIgnoresCase | agentic-underwriting-backend/app/routers/copilot.py:33-42 | lowering a message does not change whether it is small talk |
| Copilot.ShortIsNotSmallTalk | agentic-underwriting-backend/app/routers/copilot.py:24-30 | none of the five patterns matches a text of fewer than two characters |
| Copilot.PrefixSpacedWordSpelled | agentic-underwriting-backend/app/routers/copilot.py:25-29 | `prefix\s+word` followed by a text that does not begin with whitespace matches exactly when there is whitespace and the text is one of the words |
| Copilot.PrefixSpacedWordParts | agentic-underwriting-backend/app/routers/copilot.py:25-29 | every match of `prefix\s+word` is the prefix, some whitespace and one of the words |
| Copilot.GreetingWords | agentic-underwriting-backend/app/routers/copilot.py:25 | the greeting pattern matches exactly hi, hello, hey, howdy, each alone or followed by " there" |
| Copilot.TimeOfDaySpelled | agentic-underwriting-backend/app/routers/copilot.py:26 | "good", whitespace and a word match exactly when there is whitespace and the word is morning, afternoon or evening |
| Copilot.HailSpelled | agentic-underwriting-backend/app/routers/copilot.py:27 | hi, hello or hey, an optional "!" or ".", any whitespace and an optional "copilot" or "there" always match |
| Copilot.HailParts | agentic-underwriting-backend/app/routers/copilot.py:27 | every match of the hail pattern is written that way |
| Copilot.HailWord | agentic-underwriting-backend/app/routers/copilot.py:27 | a hail begins with hi, hello or hey, and what follows that word is a hail tail |
| Copilot.ThanksSpelled | agentic-underwriting-backend/app/routers/copilot.py:28 | "thank" followed by some text matches exactly for "thanks" and for whitespace then "you" |
| Copilot.WhatsUpSpelled | agentic-underwriting-backend/app/routers/copilot.py:29 | "what's" or "whats", whitespace and a word match exactly when there is whitespace and the word is "up" |
| Copilot.HelloThere | agentic-underwriting-backend/app/routers/copilot.py:25 | "hello there" is small talk by the first pattern |
| Copilot.GoodMorning | agentic-underwriting-backend/app/routers/copilot.py:26 | "good  morning" (two spaces) is small talk by the second pattern |
| Copilot.Hey | agentic-underwriting-backend/app/routers/copilot.py:27 | "hey!" is small talk by the third pattern |
| Copilot.ThankYou | agentic-underwriting-backend/app/routers/copilot.py:28 | "thank you" is small talk by the fourth pattern |
| Copilot.WhatsUpExample | agentic-underwriting-backend/app/routers/copilot.py:29 | "whats up" is small talk by the fifth pattern |
| Copilot.SmallTalkReply | agentic-underwriting-backend/app/routers/copilot.py:45-62 | thanks first, then the portfolio greeting, then the greeting naming a non-empty case id, then the default greeting |
| Copilot.CaseReplyNamesCase | agentic-underwriting-backend/app/routers/copilot.py:57-60 | the case greeting contains the case id |
| Copilot.Chat | agentic-underwriting-backend/app/routers/copilot.py:87-149 | an unknown or empty case gets the not-found answer; small talk is answered exactly when the message is small talk and the case was found; for a found case and other messages the case answer is given exactly when the `CaseContext` validates and the case view is built (otherwise the handler fails), and it is the knowledge answer when non-empty, else the fixed fallback text, with the view's actions and decision; the portfolio branch runs exactly without a case id and without small talk |
| Copilot.AnsweredWithoutAgent | agentic-underwriting-backend/app/routers/copilot.py:89-99 | the not-found and small-talk answers depend neither on the case view nor on the knowledge agent's answer |
| KnowledgeAgentClient.RequestIdAt | agentic-underwriting-backend/app/services/agents/foundry_knowledge_agent_client.py:193 | a match at a position starts at a quote and captures a non-empty quote-free id |
| KnowledgeAgentClient.SearchRequestId | agentic-underwriting-backend/app/services/agents/foundry_knowledge_agent_client.py:193 | a found id is non-empty and holds no quote |
| KnowledgeAgentClient.ExtractRequestId | agentic-underwriting-backend/app/services/agents/foundry_knowledge_agent_client.py:190-194 | an empty message gives None; otherwise the leftmost match of the pattern |
| KnowledgeAgentClient.SearchRequestIdNone | agentic-underwriting-backend/app/services/agents/foundry_knowledge_agent_client.py:193 | nothing is found exactly when no position matches |
| KnowledgeAgentClient.NoMatchAt | agentic-underwriting-backend/app/services/agents/foundry_knowledge_agent_client.py:193 | a search that finds nothing passed every position |
| KnowledgeAgentClient.SearchRequestIdWitness | agentic-underwriting-backend/app/services/agents/foundry_knowledge_agent_client.py:193 | a found id was matched at some position |
| KnowledgeAgentClient.SearchRequestIdSkips | agentic-underwriting-backend/app/services/agents/foundry_knowledge_agent_client.py:193 | positions without a quote cannot start a match |
| KnowledgeAgentClient.RequestIdAtKey | agentic-underwriting-backend/app/services/agents/foundry_knowledge_agent_client.py:193 | `"requestId": "<id>"` matches, capturing the id |
| KnowledgeAgentClient.RequestIdAtShift | agentic-underwriting-backend/app/services/agents/foundry_knowledge_agent_client.py:193 | a match does not depend on what precedes its position |
| KnowledgeAgentClient.RequestIdFound | agentic-underwriting-backend/app/services/agents/foundry_knowledge_agent_client.py:190-194 | a message carrying `"requestId": "<id>"` after a quote-free prefix gives that id |
| KnowledgeAgentClient.DropOpening | agentic-underwriting-backend/app/services/agents/foundry_knowledge_agent_client.py:201-206 | text that does not start with three backticks is left alone; otherwise it never grows |
| KnowledgeAgentClient.DropClosing | agentic-underwriting-backend/app/services/agents/foundry_knowledge_agent_client.py:207-208 | text that does not end with three backticks is left alone; otherwise a prefix of it is kept |
| KnowledgeAgentClient.StripCodeFence | agentic-underwriting-backend/app/services/agents/foundry_knowledge_agent_client.py:197-209 | an empty text is returned; any other result is stripped and never longer than the text |
| KnowledgeAgentClient.UnfencedOnlyStripped | agentic-underwriting-backend/app/services/agents/foundry_knowledge_agent_client.py:200-209 | a text without fences is only stripped |
| KnowledgeAgentClient.FenceOpening | agentic-underwriting-backend/app/services/agents/foundry_knowledge_agent_client.py:201-206 | the opening backticks and the language line are removed |
| KnowledgeAgentClient.FenceClosing | agentic-underwriting-backend/app/services/agents/foundry_knowledge_agent_client.py:207-208 | the closing backticks are removed |
| KnowledgeAgentClient.StripNewline | agentic-underwriting-backend/app/services/agents/foundry_knowledge_agent_client.py:209 | stripping drops the newline left before the closing fence |
| KnowledgeAgentClient.FencedIsStripped | agentic-underwriting-backend/app/services/agents/foundry_knowledge_agent_client.py:200 | a fenced text is already stripped |
| KnowledgeAgentClient.StripCodeFenceRoundTrip | agentic-underwriting-backend/app/services/agents/foundry_knowledge_agent_client.py:197-209 | a stripped body fenced as ```tag, the body and a closing fence, comes back as the body |
| KnowledgeAgentClient.FixCitation | agentic-underwriting-backend/app/services/agents/foundry_knowledge_agent_client.py:219-225 | a copy of the citation with a float score, keeping the key order and appending "score" when it was absent |
| KnowledgeAgentClient.FixedOne | agentic-underwriting-backend/app/services/agents/foundry_knowledge_agent_client.py:216-225 | an element contributes one citation exactly when it is a dict |
| KnowledgeAgentClient.Fixed | agentic-underwriting-backend/app/services/agents/foundry_knowledge_agent_client.py:215-225 | no more citations than elements |
| KnowledgeAgentClient.FixedSnoc | agentic-underwriting-backend/app/services/agents/foundry_knowledge_agent_client.py:216-225 | one more element adds what it contributes |
| KnowledgeAgentClient.FixedScores | agentic-underwriting-backend/app/services/agents/foundry_knowledge_agent_client.py:220-224 | every kept citation has a float score |
| KnowledgeAgentClient.FixedNoDicts | agentic-underwriting-backend/app/services/agents/foundry_knowledge_agent_client.py:217-218 | elements that are not dicts are dropped |
| KnowledgeAgentClient.FixScored | agentic-underwriting-backend/app/services/agents/foundry_knowledge_agent_client.py:220-222 | a citation whose score is a float is unchanged |
| KnowledgeAgentClient.FixedScoredIdentity | agentic-underwriting-backend/app/services/agents/foundry_knowledge_agent_client.py:215-226 | a list of dicts with float scores is unchanged |
| KnowledgeAgentClient.Coerced | agentic-underwriting-backend/app/services/agents/foundry_knowledge_agent_client.py:212-227 | the keys stay; a "citations" list is replaced by the fixed list; anything else leaves the dict as it was |
| KnowledgeAgentClient.CoercedOther | agentic-underwriting-backend/app/services/agents/foundry_knowledge_agent_client.py:212-227 | coercion touches no other key |
| KnowledgeAgentClient.CoerceCitations | agentic-underwriting-backend/app/services/agents/foundry_knowledge_agent_client.py:212-227 | the loop computes exactly `Coerced` |
| KnowledgeAgentClient.KnowledgeResponseFromJson | agentic-underwriting-backend/app/services/agents/foundry_knowledge_agent_client.py:42-47 | validates exactly when the fields have the declared types; question and answer are read from their entries |
| KnowledgeAgentClient.KnowledgeResponseStrings | agentic-underwriting-backend/app/services/agents/foundry_knowledge_agent_client.py:43-44 | the question and answer of a dumped response read back as they were |
| KnowledgeAgentClient.KnowledgeResponseCitations | agentic-underwriting-backend/app/services/agents/foundry_knowledge_agent_client.py:45 | the citations of a dumped response read back as they were |
| KnowledgeAgentClient.KnowledgeResponseOptionals | agentic-underwriting-backend/app/services/agents/foundry_knowledge_agent_client.py:46-47 | the timestamp and relevance score read back as they were |
| KnowledgeAgentClient.KnowledgeResponseRoundTrip | agentic-underwriting-backend/app/services/agents/foundry_knowledge_agent_client.py:42-47 | a dumped response validates back to itself |
| KnowledgeAgentClient.CoercedDumped | agentic-underwriting-backend/app/services/agents/foundry_knowledge_agent_client.py:212-227 | coercion leaves a dumped response with float scores unchanged |
| KnowledgeAgentClient.ParseAnswer | agentic-underwriting-backend/app/services/agents/foundry_knowledge_agent_client.py:132-157 | a parsed answer is the unfenced text loaded as a dict, coerced and validated |
| KnowledgeAgentClient.Ask | agentic-underwriting-backend/app/services/agents/foundry_knowledge_agent_client.py:107-178 | a blank question raises; a failed call or empty output gives the empty response for the question; otherwise the parsed answer, or the empty response when parsing fails |
| KnowledgeAgentClient.ParseAnswerDumped | agentic-underwriting-backend/app/services/agents/foundry_knowledge_agent_client.py:132-157 | an answer that loads as a dumped response with float scores gives that response |
| KnowledgeAgentClient.AskRoundTrip | agentic-underwriting-backend/app/services/agents/foundry_knowledge_agent_client.py:107-157 | a fenced dumped response comes back intact |
| KnowledgeAgentClient.NonDictAnswerIsEmpty | agentic-underwriting-backend/app/services/agents/foundry_knowledge_agent_client.py:146-166 | a JSON answer that is not a dict gives the empty response |
| FabricDataAgentClient.ErrorResponse | agentic-underwriting-backend/app/services/agents/foundry_fabric_data_agent_client.py:132-139 | status "error", no columns, no rows, no data, and the given comments |
| FabricDataAgentClient.DefaultStr | agentic-underwriting-backend/app/services/agents/foundry_fabric_data_agent_client.py:50-51 | an absent text field takes its default; a present one must be a string, which is the value |
| FabricDataAgentClient.FabricResponseFromJson | agentic-underwriting-backend/app/services/agents/foundry_fabric_data_agent_client.py:44-52 | validates exactly when status, columns and rows are present and typed and the defaulted fields are typed; the status is read from its entry; an absent response is [] |
| FabricDataAgentClient.FabricResponseCounts | agentic-underwriting-backend/app/services/agents/foundry_fabric_data_agent_client.py:47-49 | the status and counts of a dumped response read back as they were |
| FabricDataAgentClient.FabricResponseTexts | agentic-underwriting-backend/app/services/agents/foundry_fabric_data_agent_client.py:50-51 | the comments and summary read back as they were |
| FabricDataAgentClient.FabricResponseRows | agentic-underwriting-backend/app/services/agents/foundry_fabric_data_agent_client.py:52 | the data rows read back as they were |
| FabricDataAgentClient.FabricResponseRoundTrip | agentic-underwriting-backend/app/services/agents/foundry_fabric_data_agent_client.py:44-52 | a dumped response validates back to itself |
| FabricDataAgentClient.ParseStructured | agentic-underwriting-backend/app/services/agents/foundry_fabric_data_agent_client.py:141-175 | JSON that does not load gives "Invalid JSON from agent: …"; a non-dict gives the `.get` attribute error as a schema failure; a dict is validated, a failure giving "Schema validation failed: …" |
| FabricDataAgentClient.AskStructured | agentic-underwriting-backend/app/services/agents/foundry_fabric_data_agent_client.py:115-188 | a blank question raises; a raised call gives "Error: …"; empty output gives "Empty response from Foundry agent"; otherwise the parsed text |
| FabricDataAgentClient.NonErrorIsAgentData | agentic-underwriting-backend/app/services/agents/foundry_fabric_data_agent_client.py:165 | a response whose status is not "error" is the agent's own JSON, validated |
| FabricDataAgentClient.CauseIsError | agentic-underwriting-backend/app/services/agents/foundry_fabric_data_agent_client.py:145-188 | an error response with one of the prefixes names a cause |
| FabricDataAgentClient.EmptyIsError | agentic-underwriting-backend/app/services/agents/foundry_fabric_data_agent_client.py:132-139 | the empty-output response names a cause |
| FabricDataAgentClient.ParsedIsAgentDataOrError | agentic-underwriting-backend/app/services/agents/foundry_fabric_data_agent_client.py:141-175 | a parsed text is the agent's validated JSON or an error naming the cause |
| FabricDataAgentClient.RaisedIsError | agentic-underwriting-backend/app/services/agents/foundry_fabric_data_agent_client.py:177-188 | a raised call gives an error naming the cause |
| FabricDataAgentClient.NoTextIsError | agentic-underwriting-backend/app/services/agents/foundry_fabric_data_agent_client.py:129-139 | missing output gives an error naming the cause |
| FabricDataAgentClient.TextIsAgentDataOrError | agentic-underwriting-backend/app/services/agents/foundry_fabric_data_agent_client.py:141-175 | an output text gives the agent's JSON or an error naming the cause |
| FabricDataAgentClient.AgentDataOrError | agentic-underwriting-backend/app/services/agents/foundry_fabric_data_agent_client.py:115-188 | whatever the agent does, an accepted question gets its validated JSON or an error response with no data whose comments name the cause |
| FabricDataAgentClient.PrefixStarts | agentic-underwriting-backend/app/services/agents/foundry_fabric_data_agent_client.py:149 | an error text starts with its prefix |
| FabricDataAgentClient.AskStructuredRoundTrip | agentic-underwriting-backend/app/services/agents/foundry_fabric_data_agent_client.py:141-165 | an answer that loads as a dumped response comes back intact |
| SkKernel.RoleOf | agentic-underwriting-backend/app/services/sk_kernel.py:73-75 | "system" and "assistant" map to their roles, every other role to the user; never the tool role |
| SkKernel.BuildChatHistory | agentic-underwriting-backend/app/services/sk_kernel.py:71-76 | one message per pair, in order, each with its mapped role and content |
| SkKernel.FirstSpeaker | agentic-underwriting-backend/app/services/sk_kernel.py:82-84 | the index of the first assistant message with content: nobody before it speaks |
| SkKernel.FirstSpeakerIs | agentic-underwriting-backend/app/services/sk_kernel.py:82-84 | the first speaker is the index before which nobody speaks and at which someone does |
| SkKernel.FirstAssistantText | agentic-underwriting-backend/app/services/sk_kernel.py:78-87 | "" for no results; the stripped content of the first assistant message with content; else the first message's stripped content or ""; always stripped |
| SkKernel.ExtractFirstAssistantText | agentic-underwriting-backend/app/services/sk_kernel.py:78-87 | the loop returns exactly `FirstAssistantText` |
| SkKernel.AssistantOverUser | agentic-underwriting-backend/app/services/sk_kernel.py:82-84 | an assistant answer is taken over an earlier user message |
| SkKernel.FenceInner | agentic-underwriting-backend/app/services/sk_kernel.py:95 | the fence pattern matches exactly a text of at least six characters that starts and ends with three backticks |
| SkKernel.TagLength | agentic-underwriting-backend/app/services/sk_kernel.py:95 | the optional tag is "json" or nothing |
| SkKernel.CleanJsonText | agentic-underwriting-backend/app/services/sk_kernel.py:90-101 | an empty text is returned; any other result is stripped and never longer than the text |
| SkKernel.JsonStartNotWord | agentic-underwriting-backend/app/services/sk_kernel.py:99 | a text starting with a bracket does not start with "json " |
| SkKernel.NotJsonWord | agentic-underwriting-backend/app/services/sk_kernel.py:95 | four characters holding a space or a bracket are not "json" in any case |
| SkKernel.UntaggedNoWord | agentic-underwriting-backend/app/services/sk_kernel.py:95 | a fence body starting with whitespace or a bracket has no tag |
| SkKernel.FenceParts | agentic-underwriting-backend/app/services/sk_kernel.py:95-97 | the group of a fenced JSON text is what lies between the fences, less the tag |
| SkKernel.StripFenceBody | agentic-underwriting-backend/app/services/sk_kernel.py:97 | stripping the group leaves the JSON body |
| SkKernel.CleanFencedJson | agentic-underwriting-backend/app/services/sk_kernel.py:90-101 | a JSON object or array fenced with ``` or ```json, the tag in any case, comes back as the body |
| SkKernel.CleanJsonWord | agentic-underwriting-backend/app/services/sk_kernel.py:99-100 | a JSON body after "json " (in any case) loses the word |
| SkKernel.CleanPlainText | agentic-underwriting-backend/app/services/sk_kernel.py:90-101 | a text without a fence and without a leading "json " is only stripped |
| SkKernel.LlmResponse | agentic-underwriting-backend/app/services/sk_kernel.py:148-159 | a failed call raises; otherwise the cleaned reply parsed as JSON, or the summary-only fallback when it does not parse |
| SkKernel.SummaryFallbackFields | agentic-underwriting-backend/app/services/sk_kernel.py:156 | the fallback holds the cleaned text as summary and an empty bullet list, in that order |
| SkKernel.LlmResponseFenced | agentic-underwriting-backend/app/services/sk_kernel.py:148-152 | a fenced JSON answer gives the parsed object |
| LocationIntelligence.GetToken | agentic-underwriting-backend/app/services/agents/LocationIntelligence_Agent.py:48-58 | a held, non-empty token with more than 60 seconds left is handed out and the cache kept; otherwise the credential's token is stored with its expiry and returned |
| LocationIntelligence.ReturnedIsHeld | agentic-underwriting-backend/app/services/agents/LocationIntelligence_Agent.py:52-58 | the token returned is the one the cache then holds; a reused token had more than 60 seconds left |
| LocationIntelligence.FirstCallFetches | agentic-underwriting-backend/app/services/agents/LocationIntelligence_Agent.py:44-58 | the first call on the initial cache always asks the credential |
| LocationIntelligence.ReusedUntilNearExpiry | agentic-underwriting-backend/app/services/agents/LocationIntelligence_Agent.py:51-53 | after a fetch, every call more than 60 seconds before the expiry reuses the fetched token |
| LocationIntelligence.RefreshedNearExpiry | agentic-underwriting-backend/app/services/agents/LocationIntelligence_Agent.py:51-58 | a call within 60 seconds of the expiry, or after it, fetches again |
| LocationIntelligence.TokenCache.constructor | agentic-underwriting-backend/app/services/agents/LocationIntelligence_Agent.py:44 | the cache starts with no token and expiry 0 |
| LocationIntelligence.TokenCache.GetMapsToken | agentic-underwriting-backend/app/services/agents/LocationIntelligence_Agent.py:48-58 | the new cache and the token returned are those of `GetToken` on the old cache |
| LocationIntelligence.CleanZip | agentic-underwriting-backend/app/services/agents/LocationIntelligence_Agent.py:126 | the cleaned code holds no dash and is stripped |
| LocationIntelligence.CleanZipPlusFour | agentic-underwriting-backend/app/services/agents/LocationIntelligence_Agent.py:126 | a ZIP+4 code is looked up by the part before the dash |
| LocationIntelligence.CleanZipNoDash | agentic-underwriting-backend/app/services/agents/LocationIntelligence_Agent.py:126 | a code without a dash is only stripped |
| LocationIntelligence.GeocodeQuery | agentic-underwriting-backend/app/services/agents/LocationIntelligence_Agent.py:131 | the search asks for the cleaned code in the given country, one result |
| LocationIntelligence.FirstResult | agentic-underwriting-backend/app/services/agents/LocationIntelligence_Agent.py:135-155 | a location needs a non-empty results list; it has the keys lat, lon, address, admin and confidence; no results give None |
| LocationIntelligence.FirstResultPosition | agentic-underwriting-backend/app/services/agents/LocationIntelligence_Agent.py:139-145 | the location's lat and lon are those of the first result's position |
| LocationIntelligence.Geocode | agentic-underwriting-backend/app/services/agents/LocationIntelligence_Agent.py:115-158 | a failed search gives None; otherwise the location read from the first result |
| LocationIntelligence.NotFoundResponse | agentic-underwriting-backend/app/services/agents/LocationIntelligence_Agent.py:425-429 | success false, data None and the error "ZIP code not found: {zipcode}" |
| LocationIntelligence.LookUp | agentic-underwriting-backend/app/services/agents/LocationIntelligence_Agent.py:421-431 | the not-found answer exactly when geocoding gives nothing; otherwise the geocoded location |
| LocationIntelligence.NotFoundNamesInput | agentic-underwriting-backend/app/services/agents/LocationIntelligence_Agent.py:423-429 | the not-found answer names the code as given, not its cleaned form |
| LocationIntelligence.SuffixContained | agentic-underwriting-backend/app/services/agents/LocationIntelligence_Agent.py:427 | a text contains any text it ends with |
| LocationIntelligence.WeatherAlerts | agentic-underwriting-backend/app/services/agents/LocationIntelligence_Agent.py:182-197 | the same single placeholder alert whatever the point |
| LocationIntelligence.PointCoord | agentic-underwriting-backend/app/services/agents/LocationIntelligence_Agent.py:249 | a pair exactly when the point is a dict with both keys; the KeyError of the first missing key otherwise |
| LocationIntelligence.Coords | agentic-underwriting-backend/app/services/agents/LocationIntelligence_Agent.py:249 | a pair per point, in order, exactly when every point has one |
| LocationIntelligence.CoordsFirstFailure | agentic-underwriting-backend/app/services/agents/LocationIntelligence_Agent.py:249 | the comprehension raises the exception of the first bad point |
| LocationIntelligence.PyEqEquivalence | agentic-underwriting-backend/app/services/agents/LocationIntelligence_Agent.py:250 | Python's `==` on scalars is reflexive, symmetric and transitive; an int equals the float of its value and never a string; True equals 1 and False equals 0.0 |
| LocationIntelligence.CloseRing | agentic-underwriting-backend/app/services/agents/LocationIntelligence_Agent.py:250-251 | the first pair is appended exactly when the ring is non-empty and not closed; nothing else changes |
| LocationIntelligence.RingClosed | agentic-underwriting-backend/app/services/agents/LocationIntelligence_Agent.py:250-251 | a non-empty ring ends where it starts |
| LocationIntelligence.CloseRingIdempotent | agentic-underwriting-backend/app/services/agents/LocationIntelligence_Agent.py:250-251 | closing a closed ring changes nothing |
| LocationIntelligence.IsochroneToGeoJson | agentic-underwriting-backend/app/services/agents/LocationIntelligence_Agent.py:235-271 | an empty boundary gives the "No boundary data" feature; a polygon exactly for a non-empty boundary list whose points all have coordinates; its ring is that list closed, with the minutes and seconds of the budget |
| LocationIntelligence.NoBoundaryData | agentic-underwriting-backend/app/services/agents/LocationIntelligence_Agent.py:239-247 | a reply without a reachable range gives the "No boundary data" feature |
| LocationIntelligence.PolygonRing | agentic-underwriting-backend/app/services/agents/LocationIntelligence_Agent.py:249-264 | the polygon's ring is the boundary's longitude/latitude pairs, in order, closed |
| LocationIntelligence.MalformedPoint | agentic-underwriting-backend/app/services/agents/LocationIntelligence_Agent.py:249-271 | a malformed point gives an error feature carrying its exception's text |
| LocationIntelligence.FeatureToJson | agentic-underwriting-backend/app/services/agents/LocationIntelligence_Agent.py:243-271 | a Feature dict with type, properties and geometry, whose geometry is None exactly for an error feature |
| Config.MapEach | agentic-underwriting-backend/app/config.py:41 | one result per part, in order, each the function applied to that part |
| Config.StripEachStripped | agentic-underwriting-backend/app/config.py:41 | every stripped entry has no surrounding whitespace |
| Config.StripEachFree | agentic-underwriting-backend/app/config.py:41 | stripping adds no comma |
| Config.NonBlank | agentic-underwriting-backend/app/config.py:41 | the filter never lengthens the list |
| Config.NonBlankClean | agentic-underwriting-backend/app/config.py:41 | stripped comma-free entries that survive the filter are clean origins |
| Config.NonBlankConcat | agentic-underwriting-backend/app/config.py:41 | the filter works entry by entry and keeps the order |
| Config.NonBlankAll | agentic-underwriting-backend/app/config.py:41 | a list without empty entries is kept whole |
| Config.NonBlankOne | agentic-underwriting-backend/app/config.py:41 | a single entry is kept exactly when it is not empty |
| Config.MapEachConcat | agentic-underwriting-backend/app/config.py:41 | stripping each entry commutes with concatenation |
| Config.OriginsFromText | agentic-underwriting-backend/app/config.py:41 | every origin read from a text is non-empty, stripped and comma-free |
| Config.OriginsOrder | agentic-underwriting-backend/app/config.py:41 | the origins of a text are those before its first comma followed by those after it |
| Config.OriginsOne | agentic-underwriting-backend/app/config.py:41 | a comma-free text gives its stripped form, or nothing when it is blank |
| Config.BlankDropped | agentic-underwriting-backend/app/config.py:41 | a blank entry is dropped |
| Config.OriginsRoundTrip | agentic-underwriting-backend/app/config.py:40-41 | joining clean origins with commas and parsing gives them back |
| Config.ParseOrigins | agentic-underwriting-backend/app/config.py:37-42 | a string becomes the list of its origins; any other value passes through unchanged |
| Config.CorsOrigins | agentic-underwriting-backend/app/config.py:11-42 | no setting gives ["http://localhost:3000"]; a string gives its origins; any other value is checked as a list of strings |
| Config.CorsOriginsFromText | agentic-underwriting-backend/app/config.py:11-42 | a comma-separated setting of clean origins gives exactly those origins |
| Config.CorsOriginsFromList | agentic-underwriting-backend/app/config.py:37-42 | a setting given as a list of strings is kept as it is |
| Cases.CaseContextOf | agentic-underwriting-backend/app/routers/cases.py:17 | the context has the case id and render_case; an absent lob gives Homeowners; a present lob must be one of the literals and is kept |
| Cases.GetCaseView | agentic-underwriting-backend/app/routers/cases.py:12-18 | a missing or empty case is a 404 "Case not found"; otherwise the context when it validates, else a 500 |
| Cases.DecisionSeconds | agentic-underwriting-backend/app/routers/cases.py:41 | max(30, int(value)) with 180 for an absent value; always at least 30 |
| Cases.Rerun | agentic-underwriting-backend/app/routers/cases.py:38-41 | fails exactly when `int` rejects the decision time |
| Cases.RerunDefined | agentic-underwriting-backend/app/routers/cases.py:38-41 | the rerun succeeds exactly when `int` accepts the stored decision time or there is none |
| Cases.RerunChanges | agentic-underwriting-backend/app/routers/cases.py:38-42 | the rerun sets validatedAt to the current time and decisionTimeSeconds to max(30, int(stored time, or 180 when absent)); every other entry is the stored one |
| Cases.RerunKeys | agentic-underwriting-backend/app/routers/cases.py:38-42 | the stored keys are kept and at most the two stamped keys are added |
| Cases.RerunDefaultSeconds | agentic-underwriting-backend/app/routers/cases.py:41 | a decision without a time gets 180 seconds |
| Cases.RerunAiDecision | agentic-underwriting-backend/app/routers/cases.py:29-42 | a missing case is a 404; a case without a truthy aiDecision a 400; a success is the rerun of the stored decision |
| Cases.RerunResponse | agentic-underwriting-backend/app/routers/cases.py:29-42 | the HTTP errors of the handler pass through unchanged; a success is the returned dict validated as an `AiDecision` |
| Cases.RerunResponseStamped | agentic-underwriting-backend/app/routers/cases.py:39-41 | the decision sent back carries the new validation time and the decision time max(30, int(stored time, or 180 when absent)) |

## Left out

- **Network and agent calls.** The Azure Maps REST helpers (`_get_json`, `_get_png`, `reverse_geocode`, `isochrone`, the static-map fallback chain) are not modelled. Nor are Foundry/OpenAI client construction, `_resolve_agent` and the Semantic Kernel bootstrap (`_build_kernel`, `_get_service` and its lazily set kernel). Each call a modelled function makes is a parameter holding the call's result or exception.
- **Rest of `get_location_intelligence`.** Everything after the ZIP lookup is out: reverse geocoding, the isochrone request, the map files and `build_interactive_map`. It is network traffic, file writes and HTML templating.
- **Token credential.** `LocationIntelligence.GetToken` takes the token the credential hands out as a parameter, so an exception from `get_token` is not modelled.
- **Concurrency.** `_run_coro_in_new_thread` and the event-loop detection in `get_llm_response` and `get_chat_completion` are not modelled. So are the async handlers' scheduling and any concurrent access to the cache directory.
- **File I/O.**
  - The cache directory is a map. A file that cannot be read or parsed is the `Corrupt` contents. A directory that cannot be written is a flag of the cache.
  - `list_cached_files` is not modelled: it is a directory glob with no rule to state.
  - `local_repo.py` is not part of this model. Stored cases are parameters.
- **Logging and telemetry.** The logger set-up, every log call, and `telemetry.py` are left out. In `ask` and `ask_structured` the request id is only logged, so it does not reach the result; `ExtractRequestId` is modelled on its own.
- **The openai version guard** in `sk_kernel.py` is left out. Its RuntimeError is swallowed by its own `except`.
- **Floating point.**
  - Scores and averages are mathematical reals.
  - IEEE effects are not modelled.
  - String parsing by `float()` and `int()` is an abstract function of `Builtins`, and so is `json.loads`.
- RiskAgent.AssessRisk: does not model Python's `round(..., 2)` of the score, because decimal rounding of binary floats is outside the real-number model; the score is the unrounded value.
- **Timestamps.**
  - They are integers in seconds.
  - `isoformat`/`fromisoformat` are not modelled, nor the mix of UTC and local time between files.
  - `Cases.RerunAiDecision` takes the current time's ISO text as a parameter.
- **Unicode.**
  - `str.isspace` is the exact set of Python whitespace characters.
  - `str.isupper` and `str.lower` are modelled for ASCII and Latin-1 letters only.
  - `re.IGNORECASE` on "json" compares those lowered letters.
- **Python values.**
  - `LocationIntelligence.PyEq`, Python's `==` on JSON scalars, compares numbers by value and all else structurally; mixed int/float lists are compared item by item as there.
  - Python 3.11 is assumed for the text of the TypeError that `.get` on a non-dict raises.
- **Validation.** pydantic's validation is hand-written validators returning a `Result`. Their failure texts stand for pydantic's messages, which are not reproduced. pydantic-settings' JSON decoding of list-valued environment variables is not modelled: `Config.CorsOrigins` starts from the value handed to the validator.
- **`str(case_doc)`.** `Conductor.GenerateKnowledgeQueries` takes it as the parameter `docText`, since Python's repr of a dict is not modelled.
- **Language-model output.** `generate_explanation` is not modelled; `Conductor.BuildCaseView` takes its summary-and-bullets dict as a parameter. In the property summary, `top_n` is only handed to the agent's question, so no modelled result depends on it.
- Copilot.Chat: the route does not carry the knowledge citations sent with a case answer, nor the portfolio answer's text, which is a chat-model call over the listed cases; `build_case_view`'s result for the case is a parameter.
- **Case view tabs.** `CaseViewModel.tabs`, the dict of render-ready tab payloads that `build_case_view` fills from the case document, is not modelled: it only copies stored data into display sections, with no rule to state.
- **Copies.** The deep copy in `rerun_ai_decision`, and the in-place update of the isochrone coordinate list, are modelled on values. A value cannot be shared, so aliasing between the stored decision and the returned one cannot arise in the model.
- **`routers/location_intelligence.py`, `main.py` and the route handlers of `routers/fabric.py`** are HTTP plumbing and are not part of this model, except `_extract_state`.
- **Thin wrappers.** `foundry_fabric_data_agent.py` and `foundry_knowledge_agent.py` are not part of this model: they are prompt strings and thin wrappers over the clients.
