/** Fabric function A, the property support summary: claim rows for a state and
    county, validated one by one, aggregated, and cached for 72 hours. */
module FabricPropertySummary {
  import opened Wrappers
  import opened Json
  import opened Schemas
  import opened FabricCache

  const CacheTtlHours: int := 72

  // ---------------------------------------------------------------- rows

  /** The rows that validate as `FabricCountyClaimRow`, in order; the others are
      skipped. */
  function ValidRows(items: seq<Json>, b: Builtins): (rows: seq<ClaimRow>)
    ensures |rows| <= |items|
    ensures forall r :: r in rows ==> exists i :: 0 <= i < |items| && ClaimRowFromJson(items[i], b) == Ok(r)
  {
    if |items| == 0 then []
    else
      var rest := ValidRows(items[1..], b);
      assert forall r :: r in rest ==> exists i :: 0 <= i < |items| && ClaimRowFromJson(items[i], b) == Ok(r) by {
        forall r | r in rest
          ensures exists i :: 0 <= i < |items| && ClaimRowFromJson(items[i], b) == Ok(r)
        {
          var i :| 0 <= i < |items[1..]| && ClaimRowFromJson(items[1..][i], b) == Ok(r);
          assert items[1..][i] == items[i + 1];
        }
      }
      match ClaimRowFromJson(items[0], b)
      case Ok(row) => [row] + rest
      case Failure(_) => rest
  }

  /** Skipping keeps the order: it distributes over concatenation. */
  lemma {:induction false} ValidRowsConcat(a: seq<Json>, c: seq<Json>, b: Builtins)
    ensures ValidRows(a + c, b) == ValidRows(a, b) + ValidRows(c, b)
  {
    if |a| == 0 {
      assert a + c == c;
    } else {
      assert (a + c)[1..] == a[1..] + c;
      assert (a + c)[0] == a[0];
      ValidRowsConcat(a[1..], c, b);
    }
  }

  /** Every row that validates is kept. */
  lemma {:induction false} ValidRowsKeep(items: seq<Json>, b: Builtins, i: nat)
    requires i < |items| && ClaimRowFromJson(items[i], b).Ok?
    ensures ClaimRowFromJson(items[i], b).value in ValidRows(items, b)
  {
    if i > 0 {
      ValidRowsKeep(items[1..], b, i - 1);
    }
  }

  /** The row loop of `get_property_summary`. */
  method ParseRows(items: seq<Json>, b: Builtins) returns (rows: seq<ClaimRow>)
    ensures rows == ValidRows(items, b)
  {
    rows := [];
    var i := 0;
    while i < |items|
      invariant 0 <= i <= |items|
      invariant rows == ValidRows(items[..i], b)
    {
      ValidRowsConcat(items[..i], [items[i]], b);
      assert items[..i + 1] == items[..i] + [items[i]];
      match ClaimRowFromJson(items[i], b) {
        case Ok(row) => rows := rows + [row];
        case Failure(_) =>
      }
      i := i + 1;
    }
    assert items[..|items|] == items;
  }

  // ---------------------------------------------------------------- aggregates

  /** `set(r.county_code for r in rows)`. */
  function Counties(rows: seq<ClaimRow>): (cs: set<string>)
    ensures forall c :: c in cs <==> exists i :: 0 <= i < |rows| && rows[i].countyCode == c
    ensures |cs| <= |rows|
    ensures |rows| > 0 ==> |cs| >= 1
  {
    if |rows| == 0 then {}
    else
      var rest := Counties(rows[1..]);
      CountiesCons(rows, rest);
      {rows[0].countyCode} + rest
  }

  /** The counties of a list are those of its head and its tail. */
  lemma CountiesCons(rows: seq<ClaimRow>, rest: set<string>)
    requires |rows| > 0
    requires forall c :: c in rest <==> exists i :: 0 <= i < |rows[1..]| && rows[1..][i].countyCode == c
    ensures forall c :: c in {rows[0].countyCode} + rest <==> exists i :: 0 <= i < |rows| && rows[i].countyCode == c
  {
    forall c | c in rest ensures exists i :: 1 <= i < |rows| && rows[i].countyCode == c {
      var i :| 0 <= i < |rows[1..]| && rows[1..][i].countyCode == c;
      assert rows[i + 1].countyCode == c;
    }
    forall c | exists i :: 1 <= i < |rows| && rows[i].countyCode == c ensures c in rest {
      var i :| 1 <= i < |rows| && rows[i].countyCode == c;
      assert rows[1..][i - 1].countyCode == c;
    }
  }

  /** `sum(r.claims_count for r in rows)`: never negative when no count is. */
  function SumClaims(rows: seq<ClaimRow>): (total: int)
    ensures (forall i :: 0 <= i < |rows| ==> rows[i].claimsCount >= 0) ==> total >= 0
  {
    if |rows| == 0 then 0 else rows[0].claimsCount + SumClaims(rows[1..])
  }

  /** `sum(r.paid_total for r in rows)`: never negative when no amount is. */
  function SumPaid(rows: seq<ClaimRow>): (total: real)
    ensures (forall i :: 0 <= i < |rows| ==> rows[i].paidTotal >= 0.0) ==> total >= 0.0
  {
    if |rows| == 0 then 0.0 else rows[0].paidTotal + SumPaid(rows[1..])
  }

  /** `total_paid / total_claims if total_claims > 0 else 0`. */
  function AvgPaid(totalPaid: real, totalClaims: int): (avg: real)
    ensures totalClaims > 0 ==> avg * (totalClaims as real) == totalPaid
    ensures totalClaims <= 0 ==> avg == 0.0
  {
    if totalClaims > 0 then totalPaid / (totalClaims as real) else 0.0
  }

  // ---------------------------------------------------------------- get_property_summary

  function CacheParams(state: string, countyCode: string): Kwargs {
    [("state", state), ("county", countyCode)]
  }

  function Key(caseId: string, state: string, countyCode: string): string {
    CacheKey("A", caseId, CacheParams(state, countyCode))
  }

  /** A cache hit: `FabricPropertySummary(**cached["response_data"])`, where any failure
      means the entry is not used. */
  function FromCache(entry: Fields, b: Builtins): (r: Option<PropertySummary>)
    ensures r.Some? ==> HasKey(entry, "response_data") && Get(entry, "response_data").value.Obj?
    ensures r.Some? ==> PropertySummaryFromJson(Get(entry, "response_data").value, b) == Ok(r.value)
  {
    match Get(entry, "response_data")
    case Some(Obj(fs)) => PropertySummaryFromJson(Obj(fs), b).ToOption()
    case _ => None
  }

  /** The summary built from the valid rows. */
  function Summarize(rows: seq<ClaimRow>, now: int, raw: Json): (p: PropertySummary)
    ensures p.rows == rows && p.rawResponse == raw
    ensures p.totalCounties == |Counties(rows)|
    ensures |rows| > 0 ==> 1 <= p.totalCounties <= |rows|
    ensures p.totalClaims == SumClaims(rows)
    ensures p.avgPaidOverall == AvgPaid(SumPaid(rows), p.totalClaims)
    ensures p.cachedAt == now && p.cacheExpiresAt == now + CacheTtlHours * SecondsPerHour
  {
    var claims := SumClaims(rows);
    PropertySummary(rows, |Counties(rows)|, claims, AvgPaid(SumPaid(rows), claims),
                    now, now + CacheTtlHours * SecondsPerHour, raw)
  }

  /** What the row loop visits in `response` (an empty list when it is absent);
      `None` when that value cannot be iterated. */
  function ResponseItems(raw: Fields): Option<seq<Json>> {
    Iterate(GetOr(raw, "response", Arr([])))
  }

  /** The fetch path: `None` when the agent raises, answers something other than a
      dict, reports "error" or "no_data", or no row validates; otherwise the summary
      of the valid rows. */
  function Fresh(fetch: Call<Json>, now: int, b: Builtins): (r: Option<PropertySummary>)
    ensures fetch.Raised? ==> r.None?
    ensures fetch.Returned? && fetch.value.Obj? && Get(fetch.value.fields, "status") in {Some(Str("error")), Some(Str("no_data"))}
            ==> r.None?
    ensures r.Some? <==> && fetch.Returned? && fetch.value.Obj?
                         && Get(fetch.value.fields, "status") !in {Some(Str("error")), Some(Str("no_data"))}
                         && ResponseItems(fetch.value.fields).Some?
                         && |ValidRows(ResponseItems(fetch.value.fields).value, b)| > 0
    ensures r.Some? ==> r.value == Summarize(ValidRows(ResponseItems(fetch.value.fields).value, b), now, fetch.value)
  {
    match fetch
    case Raised(_) => None
    case Returned(raw) =>
      if !raw.Obj? then None
      else if Get(raw.fields, "status") == Some(Str("error")) then None
      else if Get(raw.fields, "status") == Some(Str("no_data")) then None
      else
        match ResponseItems(raw.fields)
        case None => None
        case Some(items) =>
          var rows := ValidRows(items, b);
          if |rows| == 0 then None else Some(Summarize(rows, now, raw))
  }

  /** The cache directory after the fetch path. */
  function AfterFetch(files: map<string, CacheFile>, writable: bool, caseId: string, state: string,
                      countyCode: string, now: int, made: Option<PropertySummary>): map<string, CacheFile> {
    if made.Some? && writable
    then files[Key(caseId, state, countyCode)
               := Stored(Obj(Payload("A", caseId, PropertySummaryToJson(made.value), now, CacheTtlHours,
                                     CacheParams(state, countyCode))))]
    else files
  }

  /** Within 72 hours of being stored, a summary is served from the cache as itself. */
  lemma StoredSummaryServed(files: map<string, CacheFile>, caseId: string, state: string, countyCode: string,
                            p: PropertySummary, now: int, b: Builtins)
    requires p.cachedAt <= now <= p.cachedAt + CacheTtlHours * SecondsPerHour
    ensures var key := Key(caseId, state, countyCode);
            var stored := files[key := Stored(Obj(Payload("A", caseId, PropertySummaryToJson(p), p.cachedAt,
                                                          CacheTtlHours, CacheParams(state, countyCode))))];
            var found := Cached(Find(stored, now, key));
            found.Some? && |found.value| > 0 && FromCache(found.value, b) == Some(p)
  {
    SetThenGet(files, "A", caseId, PropertySummaryToJson(p), p.cachedAt, CacheTtlHours, CacheParams(state, countyCode), now);
    PropertySummaryRoundTrip(p, b);
  }

  /** The fetch path of `get_property_summary` (its `try` block). */
  method FetchPropertySummary(cache: Cache, caseId: string, state: string, countyCode: string,
                              fetch: Call<Json>, b: Builtins)
    returns (summary: Option<PropertySummary>)
    modifies cache
    ensures summary == Fresh(fetch, old(cache.now), b)
    ensures cache.files == AfterFetch(old(cache.files), old(cache.writable), caseId, state, countyCode,
                                      old(cache.now), summary)
    ensures cache.now == old(cache.now) && cache.writable == old(cache.writable)
  {
    summary := None;
    if fetch.Returned? && fetch.value.Obj? {
      var raw := fetch.value.fields;
      var status := Get(raw, "status");
      var items := ResponseItems(raw);
      if status != Some(Str("error")) && status != Some(Str("no_data")) && items.Some? {
        var rows := ParseRows(items.value, b);
        if |rows| > 0 {
          summary := Some(Summarize(rows, cache.now, fetch.value));
          cache.SetCachedResponse("A", caseId, PropertySummaryToJson(summary.value), CacheTtlHours,
                                  CacheParams(state, countyCode));
        }
      }
    }
  }

  /** `get_property_summary`: a valid non-empty cache entry is returned with no fetch;
      an invalid one falls through to the fetch. `top_n` only reaches the agent. */
  method GetPropertySummary(cache: Cache, caseId: string, state: string, countyCode: string, forceRefresh: bool,
                            fetch: Call<Json>, b: Builtins)
    returns (r: Option<PropertySummary>, fetched: bool)
    modifies cache
    ensures var found := Cached(Find(old(cache.files), old(cache.now), Key(caseId, state, countyCode)));
            var hit := !forceRefresh && found.Some? && |found.value| > 0 && FromCache(found.value, b).Some?;
            && fetched == !hit
            && (hit ==> r == FromCache(found.value, b) && cache.files == old(cache.files))
            && (!hit ==> r == Fresh(fetch, old(cache.now), b)
                         && cache.files == AfterFetch(if forceRefresh then old(cache.files)
                                                      else AfterFind(old(cache.files), old(cache.now), Key(caseId, state, countyCode)),
                                                      old(cache.writable), caseId, state, countyCode, old(cache.now),
                                                      Fresh(fetch, old(cache.now), b)))
    ensures cache.now == old(cache.now) && cache.writable == old(cache.writable)
  {
    if !forceRefresh {
      var cached := cache.GetCachedResponse("A", caseId, CacheParams(state, countyCode));
      if cached.Some? && |cached.value| > 0 {
        var fromCache := FromCache(cached.value, b);
        if fromCache.Some? {
          return fromCache, false;
        }
      }
    }
    r := FetchPropertySummary(cache, caseId, state, countyCode, fetch, b);
    fetched := true;
  }

  /** `refresh_property_summary`: drops the (state, county) entry, then fetches. */
  method RefreshPropertySummary(cache: Cache, caseId: string, state: string, countyCode: string,
                                fetch: Call<Json>, b: Builtins)
    returns (r: Option<PropertySummary>, fetched: bool)
    modifies cache
    ensures fetched
    ensures r == Fresh(fetch, old(cache.now), b)
    ensures cache.files == AfterFetch(old(cache.files) - {Key(caseId, state, countyCode)}, old(cache.writable),
                                      caseId, state, countyCode, old(cache.now), Fresh(fetch, old(cache.now), b))
  {
    var _ := cache.InvalidateCache("A", caseId, CacheParams(state, countyCode));
    r, fetched := GetPropertySummary(cache, caseId, state, countyCode, true, fetch, b);
  }
}
