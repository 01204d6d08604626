/** Fabric function B, the ZIP-level claim statistics: claim counts and average
    losses per row, folded into a claim frequency and a claim-weighted average
    loss, and cached for 72 hours. */
module FabricZipStats {
  import opened Wrappers
  import opened Json
  import opened Schemas
  import opened FabricCache
  import Text
  import FabricPropertySummary

  const CacheTtlHours: int := 72

  // ---------------------------------------------------------------- aggregation

  /** One row's `int(row.get("claims_count", 0))` and `float(row.get("avg_loss", 0))`;
      `None` is the exception a row that is not a dict, or a value the conversions
      refuse, raises. */
  function RowFigures(row: Json, b: Builtins): (r: Option<(int, real)>)
    ensures r.Some? ==> row.Obj?
  {
    if !row.Obj? then None
    else
      var count :- PyInt(GetOr(row.fields, "claims_count", Int(0)), b);
      var avg :- PyFloat(GetOr(row.fields, "avg_loss", Int(0)), b);
      Some((count, avg))
  }

  /** The running `(total_claims, total_paid)` after the rows, each row adding its
      count and `avg_loss * claims_count`; `None` once a row raises. */
  function ZipTotals(rows: seq<Json>, b: Builtins): Option<(int, real)>
    decreases |rows|
  {
    if |rows| == 0 then Some((0, 0.0))
    else
      var before :- ZipTotals(rows[..|rows| - 1], b);
      var row :- RowFigures(rows[|rows| - 1], b);
      Some((before.0 + row.0, before.1 + Weighted(row.1, row.0)))
  }

  /** `avg_loss * claims_count`, the paid amount one row contributes, written as
      repeated addition so that the fold stays linear arithmetic; `WeightedIsProduct`
      shows that it is the product. */
  function Weighted(avg: real, count: int): real
    decreases if count >= 0 then count else -count
  {
    if count == 0 then 0.0
    else if count > 0 then Weighted(avg, count - 1) + avg
    else Weighted(avg, count + 1) - avg
  }

  lemma {:induction false} WeightedIsProduct(avg: real, count: int)
    ensures Weighted(avg, count) == avg * (count as real)
    decreases if count >= 0 then count else -count
  {
    if count > 0 {
      WeightedIsProduct(avg, count - 1);
      assert avg * ((count - 1) as real) + avg == avg * (count as real);
    } else if count < 0 {
      WeightedIsProduct(avg, count + 1);
      assert avg * ((count + 1) as real) - avg == avg * (count as real);
    }
  }

  /** A larger average over the same non-negative count weighs at least as much. */
  lemma {:induction false} WeightedMonotone(lo: real, hi: real, count: int)
    requires lo <= hi && count >= 0
    ensures Weighted(lo, count) <= Weighted(hi, count)
  {
    if count > 0 {
      WeightedMonotone(lo, hi, count - 1);
    }
  }

  /** Weights over two non-negative counts add up. */
  lemma {:induction false} WeightedAdd(avg: real, c: int, k: int)
    requires c >= 0 && k >= 0
    ensures Weighted(avg, c + k) == Weighted(avg, c) + Weighted(avg, k)
  {
    if k > 0 {
      WeightedAdd(avg, c, k - 1);
    }
  }

  /** The fold succeeds exactly when no row raises. */
  lemma {:induction false} ZipTotalsDefined(rows: seq<Json>, b: Builtins)
    ensures ZipTotals(rows, b).Some? <==> forall i :: 0 <= i < |rows| ==> RowFigures(rows[i], b).Some?
  {
    if |rows| > 0 {
      var init := rows[..|rows| - 1];
      ZipTotalsDefined(init, b);
      assert forall i :: 0 <= i < |init| ==> init[i] == rows[i];
    }
  }

  /** Once a prefix raises, the whole loop raises. */
  lemma {:induction false} ZipTotalsStaysFailed(rows: seq<Json>, i: nat, b: Builtins)
    requires i <= |rows| && ZipTotals(rows[..i], b).None?
    ensures ZipTotals(rows, b).None?
  {
    if i < |rows| {
      var init := rows[..|rows| - 1];
      assert init[..i] == rows[..i];
      ZipTotalsStaysFailed(init, i, b);
    } else {
      assert rows[..i] == rows;
    }
  }

  /** A row without `claims_count` counts zero claims and adds nothing to the paid
      total, whatever its average loss. */
  lemma CountlessRowAddsNothing(rows: seq<Json>, fs: Fields, b: Builtins)
    requires !HasKey(fs, "claims_count")
    requires ZipTotals(rows, b).Some? && PyFloat(GetOr(fs, "avg_loss", Int(0)), b).Some?
    ensures ZipTotals(rows + [Obj(fs)], b) == ZipTotals(rows, b)
  {
    var t := ZipTotals(rows, b).value;
    var a := PyFloat(GetOr(fs, "avg_loss", Int(0)), b).value;
    CountlessRowFigures(fs, b);
    AppendRow(rows, Obj(fs), b);
    ZeroWeight(t.1, a);
  }

  lemma CountlessRowFigures(fs: Fields, b: Builtins)
    requires !HasKey(fs, "claims_count") && PyFloat(GetOr(fs, "avg_loss", Int(0)), b).Some?
    ensures RowFigures(Obj(fs), b) == Some((0, PyFloat(GetOr(fs, "avg_loss", Int(0)), b).value))
  {
    assert GetOr(fs, "claims_count", Int(0)) == Int(0);
  }

  lemma ZeroWeight(p: real, a: real)
    ensures p + Weighted(a, 0) == p
  {
  }

  /** The fold over one more row. */
  lemma AppendRow(rows: seq<Json>, row: Json, b: Builtins)
    requires ZipTotals(rows, b).Some? && RowFigures(row, b).Some?
    ensures var t := ZipTotals(rows, b).value;
            var f := RowFigures(row, b).value;
            ZipTotals(rows + [row], b) == Some((t.0 + f.0, t.1 + Weighted(f.1, f.0)))
  {
    var all := rows + [row];
    assert all[..|rows|] == rows && all[|rows|] == row && all[..|rows| + 1] == all;
    ZipTotalsStep(all, |rows|, b);
  }

  /** One more row of the loop. */
  lemma ZipTotalsStep(rows: seq<Json>, i: nat, b: Builtins)
    requires i < |rows| && ZipTotals(rows[..i], b).Some? && RowFigures(rows[i], b).Some?
    ensures var t := ZipTotals(rows[..i], b).value;
            var f := RowFigures(rows[i], b).value;
            ZipTotals(rows[..i + 1], b) == Some((t.0 + f.0, t.1 + Weighted(f.1, f.0)))
  {
    assert rows[..i + 1][..i] == rows[..i];
    assert rows[..i + 1][i] == rows[i];
  }

  /** A row that raises ends the loop with the exception, whatever comes after it. */
  lemma RowRaisesStops(rows: seq<Json>, i: nat, b: Builtins)
    requires i < |rows| && RowFigures(rows[i], b).None?
    ensures ZipTotals(rows, b).None?
  {
    var prefix := rows[..i + 1];
    assert prefix[..i] == rows[..i] && prefix[i] == rows[i];
    assert ZipTotals(prefix, b).None?;
    ZipTotalsStaysFailed(rows, i + 1, b);
  }

  /** A running `(total_claims, total_paid)` with no negative count and the paid total
      between `lo` and `hi` times the claim total. */
  predicate Within(t: (int, real), lo: real, hi: real) {
    t.0 >= 0 && Weighted(lo, t.0) <= t.1 <= Weighted(hi, t.0)
  }

  lemma BoundsStep(t: (int, real), f: (int, real), lo: real, hi: real)
    requires Within(t, lo, hi)
    requires f.0 >= 0 && lo <= f.1 <= hi
    ensures Within((t.0 + f.0, t.1 + Weighted(f.1, f.0)), lo, hi)
  {
    WeightedAdd(lo, t.0, f.0);
    WeightedAdd(hi, t.0, f.0);
    WeightedMonotone(lo, f.1, f.0);
    WeightedMonotone(f.1, hi, f.0);
  }

  /** A row that does not raise, with a non-negative count and an average loss
      within `[lo, hi]`. */
  predicate RowWithin(row: Json, lo: real, hi: real, b: Builtins) {
    var f := RowFigures(row, b);
    f.Some? && f.value.0 >= 0 && lo <= f.value.1 <= hi
  }

  lemma WithinStep(rows: seq<Json>, n: nat, lo: real, hi: real, b: Builtins)
    requires n < |rows| && RowWithin(rows[n], lo, hi, b)
    requires ZipTotals(rows[..n], b).Some? && Within(ZipTotals(rows[..n], b).value, lo, hi)
    ensures ZipTotals(rows[..n + 1], b).Some? && Within(ZipTotals(rows[..n + 1], b).value, lo, hi)
  {
    ZipTotalsStep(rows, n, b);
    BoundsStep(ZipTotals(rows[..n], b).value, RowFigures(rows[n], b).value, lo, hi);
  }

  lemma {:induction false} ZipTotalsBoundsPrefix(rows: seq<Json>, n: nat, lo: real, hi: real, b: Builtins)
    requires n <= |rows|
    requires forall i :: 0 <= i < |rows| ==> RowWithin(rows[i], lo, hi, b)
    ensures ZipTotals(rows[..n], b).Some? && Within(ZipTotals(rows[..n], b).value, lo, hi)
  {
    if n > 0 {
      ZipTotalsBoundsPrefix(rows, n - 1, lo, hi, b);
      WithinStep(rows, n - 1, lo, hi, b);
    }
  }

  /** When every row has a non-negative count and an average loss within
      `[lo, hi]`, the paid total lies within `lo` and `hi` times the claim total. */
  lemma ZipTotalsBounds(rows: seq<Json>, lo: real, hi: real, b: Builtins)
    requires forall i :: 0 <= i < |rows| ==> RowWithin(rows[i], lo, hi, b)
    ensures ZipTotals(rows, b).Some? && Within(ZipTotals(rows, b).value, lo, hi)
  {
    ZipTotalsBoundsPrefix(rows, |rows|, lo, hi, b);
    assert rows[..|rows|] == rows;
  }

  /** The average of a paid total between `lo` and `hi` times a positive claim total
      lies within `[lo, hi]`. */
  lemma AvgBetween(p: real, c: int, lo: real, hi: real)
    requires c > 0 && Weighted(lo, c) <= p <= Weighted(hi, c)
    ensures lo <= FabricPropertySummary.AvgPaid(p, c) <= hi
  {
    WeightedIsProduct(lo, c);
    WeightedIsProduct(hi, c);
    var cr := c as real;
    var avg := FabricPropertySummary.AvgPaid(p, c);
    ScaleOrder(lo, avg, cr);
    ScaleOrder(avg, hi, cr);
  }

  /** Multiplying by a positive factor keeps the order. */
  lemma ScaleOrder(x: real, y: real, k: real)
    requires k > 0.0 && x * k <= y * k
    ensures x <= y
  {
  }

  /** The row loop of `get_zip_stats`, which stops at the first row that raises. */
  method AggregateZipRows(rows: seq<Json>, b: Builtins) returns (totals: Option<(int, real)>)
    ensures totals == ZipTotals(rows, b)
  {
    var totalClaims := 0;
    var totalPaid := 0.0;
    var i := 0;
    while i < |rows|
      invariant 0 <= i <= |rows|
      invariant ZipTotals(rows[..i], b) == Some((totalClaims, totalPaid))
    {
      var row := RowFigures(rows[i], b);
      if row.None? {
        RowRaisesStops(rows, i, b);
        return None;
      }
      assert ZipTotals(rows[..i + 1], b)
             == Some((totalClaims + row.value.0, totalPaid + Weighted(row.value.1, row.value.0))) by {
        ZipTotalsStep(rows, i, b);
      }
      totalClaims := totalClaims + row.value.0;
      totalPaid := totalPaid + Weighted(row.value.1, row.value.0);
      i := i + 1;
    }
    assert rows[..|rows|] == rows;
    totals := Some((totalClaims, totalPaid));
  }

  // ---------------------------------------------------------------- get_zip_stats

  /** The cache parameters `zip_code=zip_code, years=f"{years}y"`. */
  function CacheParams(zipCode: string, years: int): Kwargs {
    [("zip_code", zipCode), ("years", Text.IntToString(years) + "y")]
  }

  function Key(caseId: string, zipCode: string, years: int): string {
    CacheKey("B", caseId, CacheParams(zipCode, years))
  }

  /** A cache hit: `FabricZipClaimStats(**cached.get("response_data", cached))`, which
      is outside the `try` block, so a failure is raised to the caller. */
  function FromCache(entry: Fields, b: Builtins): (r: Call<Option<ZipStats>>)
    ensures r.Returned? ==> r.value.Some?
  {
    var data := GetOr(entry, "response_data", Obj(entry));
    if !data.Obj? then Raised("argument after ** must be a mapping")
    else
      match ZipStatsFromJson(data, b)
      case Ok(z) => Returned(Some(z))
      case Failure(e) => Raised(e)
  }

  /** The fetch path: `None` when the agent raises, answers something other than a
      dict, reports "error" or "no_data", or a row raises; otherwise the totals of
      the rows, with the ZIP code and the years echoed back. An empty response is a
      success with no claims. */
  function Fresh(fetch: Call<Json>, zipCode: string, years: int, now: int, b: Builtins): (r: Option<ZipStats>)
    ensures fetch.Raised? ==> r.None?
    ensures fetch.Returned? && fetch.value.Obj? && Get(fetch.value.fields, "status") in {Some(Str("error")), Some(Str("no_data"))}
            ==> r.None?
    ensures r.Some? ==> && fetch.Returned? && fetch.value.Obj?
                        && r.value.zipCode == zipCode && r.value.years == years
                        && r.value.rawResponse == fetch.value
                        && r.value.cachedAt == now && r.value.cacheExpiresAt == now + CacheTtlHours * SecondsPerHour
    ensures r.Some? ==> var items := Iterate(GetOr(fetch.value.fields, "response", Arr([])));
                        && items.Some? && ZipTotals(items.value, b).Some?
                        && r.value.claimFrequency == ZipTotals(items.value, b).value.0
                        && r.value.avgLoss == FabricPropertySummary.AvgPaid(ZipTotals(items.value, b).value.1, r.value.claimFrequency)
  {
    match fetch
    case Raised(_) => None
    case Returned(raw) =>
      if !raw.Obj? then None
      else if Get(raw.fields, "status") == Some(Str("error")) then None
      else if Get(raw.fields, "status") == Some(Str("no_data")) then None
      else
        var items :- Iterate(GetOr(raw.fields, "response", Arr([])));
        var totals :- ZipTotals(items, b);
        Some(ZipStats(zipCode, years, totals.0, FabricPropertySummary.AvgPaid(totals.1, totals.0),
                      now, now + CacheTtlHours * SecondsPerHour, raw))
  }

  /** With a non-negative count and an average loss within `[lo, hi]` on every row,
      the reported average loss lies within `[lo, hi]` too, or is 0.0 when no claim
      is counted. */
  lemma AvgLossWithinRowAverages(fetch: Call<Json>, zipCode: string, years: int, now: int,
                                 lo: real, hi: real, b: Builtins)
    requires fetch.Returned? && fetch.value.Obj?
    requires Get(fetch.value.fields, "status") !in {Some(Str("error")), Some(Str("no_data"))}
    requires GetOr(fetch.value.fields, "response", Arr([])).Arr?
    requires var rows := GetOr(fetch.value.fields, "response", Arr([])).items;
             forall i :: 0 <= i < |rows| ==> RowWithin(rows[i], lo, hi, b)
    ensures var r := Fresh(fetch, zipCode, years, now, b);
            && r.Some? && r.value.claimFrequency >= 0
            && (r.value.claimFrequency > 0 ==> lo <= r.value.avgLoss <= hi)
            && (r.value.claimFrequency == 0 ==> r.value.avgLoss == 0.0)
  {
    var rows := GetOr(fetch.value.fields, "response", Arr([])).items;
    ZipTotalsBounds(rows, lo, hi, b);
    var t := ZipTotals(rows, b).value;
    assert Within(t, lo, hi);
    if t.0 > 0 {
      AvgBetween(t.1, t.0, lo, hi);
    }
  }

  /** An answer with an empty (or absent) response is a success with zero claims and
      a zero average loss, not `None`. */
  lemma EmptyResponseIsZero(fetch: Call<Json>, zipCode: string, years: int, now: int, b: Builtins)
    requires fetch.Returned? && fetch.value.Obj?
    requires Get(fetch.value.fields, "status") !in {Some(Str("error")), Some(Str("no_data"))}
    requires GetOr(fetch.value.fields, "response", Arr([])) == Arr([])
    ensures var r := Fresh(fetch, zipCode, years, now, b);
            r.Some? && r.value.claimFrequency == 0 && r.value.avgLoss == 0.0
  {
  }

  /** The cache directory after the fetch path. */
  function AfterFetch(files: map<string, CacheFile>, writable: bool, caseId: string, zipCode: string,
                      years: int, now: int, made: Option<ZipStats>): map<string, CacheFile> {
    if made.Some? && writable
    then files[Key(caseId, zipCode, years)
               := Stored(Obj(Payload("B", caseId, ZipStatsToJson(made.value), now, CacheTtlHours,
                                     CacheParams(zipCode, years))))]
    else files
  }

  /** Within 72 hours of being stored, statistics are served from the cache as
      themselves. */
  lemma StoredStatsServed(files: map<string, CacheFile>, caseId: string, zipCode: string, years: int,
                          z: ZipStats, now: int, b: Builtins)
    requires z.cachedAt <= now <= z.cachedAt + CacheTtlHours * SecondsPerHour
    ensures var key := Key(caseId, zipCode, years);
            var stored := files[key := Stored(Obj(Payload("B", caseId, ZipStatsToJson(z), z.cachedAt,
                                                          CacheTtlHours, CacheParams(zipCode, years))))];
            var found := Cached(Find(stored, now, key));
            found.Some? && |found.value| > 0 && FromCache(found.value, b) == Returned(Some(z))
  {
    SetThenGet(files, "B", caseId, ZipStatsToJson(z), z.cachedAt, CacheTtlHours, CacheParams(zipCode, years), now);
    ZipStatsRoundTrip(z, b);
  }

  /** The fetch path of `get_zip_stats` (its `try` block). */
  method FetchZipStats(cache: Cache, caseId: string, zipCode: string, years: int, fetch: Call<Json>, b: Builtins)
    returns (stats: Option<ZipStats>)
    modifies cache
    ensures stats == Fresh(fetch, zipCode, years, old(cache.now), b)
    ensures cache.files == AfterFetch(old(cache.files), old(cache.writable), caseId, zipCode, years,
                                      old(cache.now), stats)
    ensures cache.now == old(cache.now) && cache.writable == old(cache.writable)
  {
    stats := None;
    if fetch.Returned? && fetch.value.Obj? {
      var raw := fetch.value.fields;
      var status := Get(raw, "status");
      var items := Iterate(GetOr(raw, "response", Arr([])));
      if status != Some(Str("error")) && status != Some(Str("no_data")) && items.Some? {
        var totals := AggregateZipRows(items.value, b);
        if totals.Some? {
          var now := cache.now;
          stats := Some(ZipStats(zipCode, years, totals.value.0, FabricPropertySummary.AvgPaid(totals.value.1, totals.value.0),
                                 now, now + CacheTtlHours * SecondsPerHour, fetch.value));
          cache.SetCachedResponse("B", caseId, ZipStatsToJson(stats.value), CacheTtlHours,
                                  CacheParams(zipCode, years));
        }
      }
    }
  }

  /** `get_zip_stats`: a non-empty cache entry is validated and returned (a failure is
      raised, not re-fetched); otherwise the statistics are fetched. */
  method GetZipStats(cache: Cache, caseId: string, zipCode: string, years: int, forceRefresh: bool,
                     fetch: Call<Json>, b: Builtins)
    returns (r: Call<Option<ZipStats>>, fetched: bool)
    modifies cache
    ensures var found := Cached(Find(old(cache.files), old(cache.now), Key(caseId, zipCode, years)));
            var hit := !forceRefresh && found.Some? && |found.value| > 0;
            && fetched == !hit
            && (hit ==> r == FromCache(found.value, b) && cache.files == old(cache.files))
            && (!hit ==> r == Returned(Fresh(fetch, zipCode, years, old(cache.now), b))
                         && cache.files == AfterFetch(if forceRefresh then old(cache.files)
                                                      else AfterFind(old(cache.files), old(cache.now), Key(caseId, zipCode, years)),
                                                      old(cache.writable), caseId, zipCode, years, old(cache.now),
                                                      Fresh(fetch, zipCode, years, old(cache.now), b)))
    ensures cache.now == old(cache.now) && cache.writable == old(cache.writable)
  {
    if !forceRefresh {
      var cached := cache.GetCachedResponse("B", caseId, CacheParams(zipCode, years));
      if cached.Some? && |cached.value| > 0 {
        return FromCache(cached.value, b), false;
      }
    }
    var stats := FetchZipStats(cache, caseId, zipCode, years, fetch, b);
    return Returned(stats), true;
  }

  /** `refresh_zip_stats`: drops the entry, then fetches. */
  method RefreshZipStats(cache: Cache, caseId: string, zipCode: string, years: int, fetch: Call<Json>, b: Builtins)
    returns (r: Call<Option<ZipStats>>, fetched: bool)
    modifies cache
    ensures fetched
    ensures r == Returned(Fresh(fetch, zipCode, years, old(cache.now), b))
    ensures cache.files == AfterFetch(old(cache.files) - {Key(caseId, zipCode, years)}, old(cache.writable),
                                      caseId, zipCode, years, old(cache.now),
                                      Fresh(fetch, zipCode, years, old(cache.now), b))
  {
    var _ := cache.InvalidateCache("B", caseId, CacheParams(zipCode, years));
    r, fetched := GetZipStats(cache, caseId, zipCode, years, true, fetch, b);
  }
}
