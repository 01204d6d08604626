/** The location intelligence agent: the cached Azure Maps token, the ZIP lookup
    and its not-found answer, the static weather alert, and the conversion of a
    drive-time isochrone into a GeoJSON feature with a closed ring. */
module LocationIntelligence {
  import opened Wrappers
  import opened Text
  import opened Json

  // ---------------------------------------------------------------- token cache

  /** What the credential hands out: the bearer token and the epoch second it
      expires at. */
  datatype AccessToken = AccessToken(token: string, expiresOn: int)

  /** The contents of `_token_cache`: the token held (`None` until the first fetch)
      and its expiry. */
  datatype CacheState = CacheState(token: Option<string>, expiresOn: int)

  const EmptyCache := CacheState(None, 0)

  /** The cached token may be handed out at time `now`: one is held, it is not
      empty, and it has more than 60 seconds left. */
  predicate Reusable(s: CacheState, now: real) {
    s.token.Some? && s.token.value != "" && now < (s.expiresOn - 60) as real
  }

  /** `_get_maps_token` on values: the new cache and the token returned. `fetched` is
      what the credential gives when it is asked. */
  function GetToken(s: CacheState, now: real, fetched: AccessToken): (r: (CacheState, string))
    ensures Reusable(s, now) ==> r == (s, s.token.value)
    ensures !Reusable(s, now) ==> r == (CacheState(Some(fetched.token), fetched.expiresOn), fetched.token)
  {
    if Reusable(s, now) then (s, s.token.value) else (CacheState(Some(fetched.token), fetched.expiresOn), fetched.token)
  }

  /** The token returned is always the one the cache then holds, and a token taken
      from the cache had more than 60 seconds left. */
  lemma ReturnedIsHeld(s: CacheState, now: real, fetched: AccessToken)
    ensures GetToken(s, now, fetched).0.token == Some(GetToken(s, now, fetched).1)
    ensures GetToken(s, now, fetched).1 != fetched.token ==>
      now < (GetToken(s, now, fetched).0.expiresOn - 60) as real
  {
  }

  /** The first call on the initial cache always asks the credential. */
  lemma FirstCallFetches(now: real, fetched: AccessToken)
    ensures GetToken(EmptyCache, now, fetched) == (CacheState(Some(fetched.token), fetched.expiresOn), fetched.token)
  {
  }

  /** After a fetch, every later call made more than 60 seconds before the expiry
      reuses the fetched token and leaves the cache as it is, whatever the
      credential would give then. */
  lemma ReusedUntilNearExpiry(s: CacheState, now: real, fetched: AccessToken, later: real, other: AccessToken)
    requires !Reusable(s, now) && fetched.token != ""
    requires later < (fetched.expiresOn - 60) as real
    ensures var s1 := GetToken(s, now, fetched).0;
      GetToken(s1, later, other) == (s1, fetched.token)
  {
  }

  /** A call made within 60 seconds of the expiry, or after it, fetches again. */
  lemma RefreshedNearExpiry(s: CacheState, now: real, fetched: AccessToken)
    requires now >= (s.expiresOn - 60) as real
    ensures GetToken(s, now, fetched).1 == fetched.token
    ensures GetToken(s, now, fetched).0 == CacheState(Some(fetched.token), fetched.expiresOn)
  {
  }

  /** The module-level `_token_cache`. */
  class TokenCache {
    var token: Option<string>
    var expiresOn: int

    function State(): CacheState
      reads this
    {
      CacheState(token, expiresOn)
    }

    constructor()
      ensures State() == EmptyCache
    {
      token := None;
      expiresOn := 0;
    }

    /** `_get_maps_token`: hands out the cached token while it has more than 60
        seconds left, and otherwise stores and returns the one the credential
        gives. */
    method GetMapsToken(now: real, fetched: AccessToken) returns (t: string)
      modifies this
      ensures old(Reusable(State(), now)) ==> t == old(token).value && token == old(token) && expiresOn == old(expiresOn)
      ensures !old(Reusable(State(), now)) ==> t == fetched.token && token == Some(fetched.token) && expiresOn == fetched.expiresOn
      ensures (State(), t) == GetToken(old(State()), now, fetched)
    {
      if token.Some? && token.value != "" && now < (expiresOn - 60) as real {
        return token.value;
      }
      token := Some(fetched.token);
      expiresOn := fetched.expiresOn;
      t := fetched.token;
    }
  }

  // ---------------------------------------------------------------- geocoding

  /** `zipcode.split("-")[0].strip()`: the stripped text before the first dash. */
  function CleanZip(zipcode: string): (r: string)
    ensures '-' !in r
    ensures IsStripped(r)
  {
    SplitPartsFree(zipcode, '-');
    var head := Split(zipcode, '-')[0];
    StripWithout(head, '-');
    Strip(head)
  }

  /** A ZIP+4 code is looked up by its five-digit part. */
  lemma CleanZipPlusFour(zip: string, plus: string)
    requires '-' !in zip
    ensures CleanZip(zip + "-" + plus) == Strip(zip)
  {
    SplitAfterPart(zip, plus, '-');
    assert zip + "-" + plus == zip + ['-'] + plus;
  }

  /** A code without a dash is only stripped. */
  lemma CleanZipNoDash(zip: string)
    requires '-' !in zip
    ensures CleanZip(zip) == Strip(zip)
  {
  }

  /** The query parameters of the address search, for the cleaned code `query`. */
  function GeocodeQuery(query: string, country: string): (q: Fields)
    ensures Get(q, "query") == Some(Str(query))
    ensures Get(q, "countrySet") == Some(Str(country)) && Get(q, "limit") == Some(Int(1))
  {
    var q := [("query", Str(query)), ("countrySet", Str(country)), ("limit", Int(1))];
    GetAt(q, 0);
    GetAt(q, 1);
    GetAt(q, 2);
    q
  }

  /** The first search result, read into the location record; `None` when there is
      no result or the reply does not have the expected shape (each of those raises
      inside the `try` that turns every exception into `None`). */
  function FirstResult(data: Json): (r: Option<Fields>)
    ensures r.Some? ==> data.Obj? && GetOr(data.fields, "results", Null).Arr?
    ensures r.Some? ==> |GetOr(data.fields, "results", Null).items| > 0
    ensures r.Some? ==> Keys(r.value) == ["lat", "lon", "address", "admin", "confidence"]
    ensures data.Obj? && (!HasKey(data.fields, "results") || GetOr(data.fields, "results", Null) == Arr([])) ==> r.None?
  {
    if !data.Obj? then None
    else
      var results := GetOr(data.fields, "results", Arr([]));
      if !Truthy(results) || !results.Arr? then None
      else
        var result := results.items[0];
        if !result.Obj? then None
        else
          match (GetDict(result.fields, "position"), GetDict(result.fields, "address"))
          case (Some(position), Some(addr)) =>
            var admin := [("municipality", GetOr(addr, "municipality", Null)),
                          ("county", GetOr(addr, "countrySecondarySubdivision", Null)),
                          ("state", GetOr(addr, "countrySubdivision", Null)),
                          ("country", GetOr(addr, "countryCode", Null)),
                          ("postalCode", GetOr(addr, "postalCode", Null))];
            var location := [("lat", GetOr(position, "lat", Null)), ("lon", GetOr(position, "lon", Null)),
                             ("address", GetOr(addr, "freeformAddress", Null)), ("admin", Obj(admin)),
                             ("confidence", GetOr(result.fields, "score", Null))];
            KeysAt(location);
            GetDistinct(location);
            Some(location)
          case _ => None
  }

  /** The location record gives the position of the first result. */
  lemma FirstResultPosition(data: Json)
    requires FirstResult(data).Some?
    ensures var result := GetOr(data.fields, "results", Null).items[0];
      result.Obj? && GetDict(result.fields, "position").Some?
      && Get(FirstResult(data).value, "lat") == Some(GetOr(GetDict(result.fields, "position").value, "lat", Null))
      && Get(FirstResult(data).value, "lon") == Some(GetOr(GetDict(result.fields, "position").value, "lon", Null))
  {
  }

  /** `geocode_zipcode`: `search` is the Azure Maps address search, given the query
      parameters; a failed request is `None`, like every other exception. */
  function Geocode(zipcode: string, country: string, search: Fields -> Call<Json>): (r: Option<Fields>)
    ensures search(GeocodeQuery(CleanZip(zipcode), country)).Raised? ==> r.None?
    ensures search(GeocodeQuery(CleanZip(zipcode), country)).Returned? ==> r == FirstResult(search(GeocodeQuery(CleanZip(zipcode), country)).value)
  {
    match search(GeocodeQuery(CleanZip(zipcode), country))
    case Raised(_) => None
    case Returned(data) => FirstResult(data)
  }

  /** What `get_location_intelligence` does with the lookup: the not-found answer,
      or the location its remaining steps go on from. */
  datatype Lookup = ZipNotFound(response: Json) | Located(location: Fields)

  /** The answer for a ZIP code the search does not know. */
  function NotFoundResponse(zipcode: string): (r: Json)
    ensures r.Obj? && Keys(r.fields) == ["success", "error", "data"]
    ensures Get(r.fields, "success") == Some(Bool(false)) && Get(r.fields, "data") == Some(Null)
    ensures Get(r.fields, "error") == Some(Str("ZIP code not found: " + zipcode))
  {
    var fs := [("success", Bool(false)), ("error", Str("ZIP code not found: " + zipcode)), ("data", Null)];
    KeysAt(fs);
    GetDistinct(fs);
    Obj(fs)
  }

  /** The first step of `get_location_intelligence`. */
  function LookUp(zipcode: string, country: string, search: Fields -> Call<Json>): (r: Lookup)
    ensures r.ZipNotFound? <==> Geocode(zipcode, country, search).None?
    ensures r.ZipNotFound? ==> r.response == NotFoundResponse(zipcode)
    ensures r.Located? ==> Geocode(zipcode, country, search) == Some(r.location) && r.location != []
  {
    match Geocode(zipcode, country, search)
    case None => ZipNotFound(NotFoundResponse(zipcode))
    case Some(location) => if location == [] then ZipNotFound(NotFoundResponse(zipcode)) else Located(location)
  }

  /** The not-found answer names the code as it was given, not its cleaned form. */
  lemma NotFoundNamesInput(zipcode: string, country: string, search: Fields -> Call<Json>)
    requires search(GeocodeQuery(CleanZip(zipcode), country)).Raised?
    ensures LookUp(zipcode, country, search) == ZipNotFound(NotFoundResponse(zipcode))
    ensures Contains("ZIP code not found: " + zipcode, zipcode)
  {
    SuffixContained("ZIP code not found: ", zipcode);
  }

  lemma {:induction false} SuffixContained(p: string, q: string)
    ensures Contains(p + q, q)
  {
    if |p| == 0 {
      assert p + q == q;
    } else {
      assert (p + q)[1..] == p[1..] + q;
      SuffixContained(p[1..], q);
    }
  }

  // ---------------------------------------------------------------- weather

  /** `weather_alerts`: the same single placeholder alert, wherever the point is. */
  function WeatherAlerts(lat: real, lon: real): (r: seq<Fields>)
    ensures |r| == 1
    ensures Keys(r[0]) == ["headline", "severity", "effective", "expires", "source"]
    ensures Get(r[0], "headline") == Some(Str("No weather alerts available"))
    ensures forall k :: k in ["severity", "effective", "expires", "source"] ==> Get(r[0], k) == Some(Str("N/A"))
  {
    var alert := [("headline", Str("No weather alerts available")), ("severity", Str("N/A")),
                  ("effective", Str("N/A")), ("expires", Str("N/A")), ("source", Str("N/A"))];
    KeysAt(alert);
    GetDistinct(alert);
    [alert]
  }

  // ---------------------------------------------------------------- isochrone

  /** One `[longitude, latitude]` pair of the ring. */
  datatype Coord = Coord(lon: Json, lat: Json)

  /** Python's `==` on two JSON scalars: numbers (booleans included) compare by
      value, everything else structurally. */
  predicate PyEq(a: Json, b: Json) {
    if Numeric(a).Some? && Numeric(b).Some? then Numeric(a).value == Numeric(b).value else a == b
  }

  /** Python's `==` on scalars is an equivalence under which an integer equals the
      float of the same value, and `True` equals 1. */
  lemma PyEqEquivalence(a: Json, b: Json, c: Json)
    ensures PyEq(a, a)
    ensures PyEq(a, b) <==> PyEq(b, a)
    ensures PyEq(a, b) && PyEq(b, c) ==> PyEq(a, c)
    ensures a.Int? ==> PyEq(a, Real(a.i as real)) && !PyEq(a, Str(""))
    ensures PyEq(Bool(true), Int(1)) && PyEq(Bool(false), Real(0.0))
  {
  }

  /** `coordinates[0] != coordinates[-1]` compares the two lists item by item. */
  predicate SameCoord(a: Coord, b: Coord) {
    PyEq(a.lon, b.lon) && PyEq(a.lat, b.lat)
  }

  /** The text of the exception `x.get(...)` raises on a value that is not a dict. */
  function NoGet(v: Json): string {
    "'" + TypeName(v) + "' object has no attribute 'get'"
  }

  /** `[point["longitude"], point["latitude"]]`, or the text of the exception it
      raises: the `KeyError` of the first missing key, or the `TypeError` of a point
      that is not a dict. */
  function PointCoord(p: Json): (r: Result<Coord>)
    ensures r.Ok? <==> p.Obj? && HasKey(p.fields, "longitude") && HasKey(p.fields, "latitude")
    ensures r.Ok? ==> Get(p.fields, "longitude") == Some(r.value.lon) && Get(p.fields, "latitude") == Some(r.value.lat)
    ensures p.Obj? && !HasKey(p.fields, "longitude") ==> r == Failure("'longitude'")
    ensures p.Obj? && HasKey(p.fields, "longitude") && !HasKey(p.fields, "latitude") ==> r == Failure("'latitude'")
  {
    match p
    case Obj(fs) =>
      (match (Get(fs, "longitude"), Get(fs, "latitude"))
       case (None, _) => Failure("'longitude'")
       case (Some(_), None) => Failure("'latitude'")
       case (Some(lon), Some(lat)) => Ok(Coord(lon, lat)))
    case Str(_) => Failure("string indices must be integers, not 'str'")
    case Arr(_) => Failure("list indices must be integers or slices, not str")
    case _ => Failure("'" + TypeName(p) + "' object is not subscriptable")
  }

  /** The list comprehension over the boundary: a pair per point, in order, or the
      exception of the first point that has none. */
  function Coords(points: seq<Json>): (r: Result<seq<Coord>>)
    ensures r.Ok? <==> forall i :: 0 <= i < |points| ==> PointCoord(points[i]).Ok?
    ensures r.Ok? ==> |r.value| == |points|
    ensures r.Ok? ==> forall i :: 0 <= i < |points| ==> r.value[i] == PointCoord(points[i]).value
  {
    if |points| == 0 then Ok([])
    else
      match PointCoord(points[0])
      case Failure(e) => Failure(e)
      case Ok(c) =>
        match Coords(points[1..])
        case Failure(e) =>
          assert forall i :: 0 <= i < |points| - 1 ==> points[1..][i] == points[i + 1];
          Failure(e)
        case Ok(rest) =>
          assert forall i :: 0 < i < |points| ==> points[i] == points[1..][i - 1];
          Ok([c] + rest)
  }

  /** The comprehension raises the exception of the first bad point. */
  lemma {:induction false} CoordsFirstFailure(points: seq<Json>, k: nat)
    requires k < |points| && PointCoord(points[k]).Failure?
    requires forall i :: 0 <= i < k ==> PointCoord(points[i]).Ok?
    ensures Coords(points) == Failure(PointCoord(points[k]).error)
  {
    if k > 0 {
      assert forall i :: 0 <= i < k - 1 ==> points[1..][i] == points[i + 1];
      CoordsFirstFailure(points[1..], k - 1);
    }
  }

  /** `coordinates.append(coordinates[0])` when the ring is not already closed. */
  function CloseRing(cs: seq<Coord>): (r: seq<Coord>)
    ensures |r| == |cs| || |r| == |cs| + 1
    ensures r[..|cs|] == cs
    ensures |r| == |cs| + 1 <==> |cs| > 0 && !SameCoord(cs[0], cs[|cs| - 1])
    ensures |r| == |cs| + 1 ==> r[|cs|] == cs[0]
  {
    if |cs| > 0 && !SameCoord(cs[0], cs[|cs| - 1]) then cs + [cs[0]] else cs
  }

  /** A non-empty ring ends where it starts. */
  lemma RingClosed(cs: seq<Coord>)
    requires |cs| > 0
    ensures SameCoord(CloseRing(cs)[0], CloseRing(cs)[|CloseRing(cs)| - 1])
  {
  }

  /** Closing a closed ring changes nothing. */
  lemma CloseRingIdempotent(cs: seq<Coord>)
    ensures CloseRing(CloseRing(cs)) == CloseRing(cs)
  {
    if |cs| > 0 {
      RingClosed(cs);
    }
  }

  /** The GeoJSON feature `isochrone_to_geojson` returns: a polygon, or the error
      feature whose geometry is `None`. */
  datatype Feature =
    | ErrorFeature(error: string)
    | Area(timeMinutes: int, timeSeconds: int, center: Json, description: string, ring: seq<Coord>)

  /** The boundary the feature is drawn from, when the reply gets that far: the
      `reachableRange` and its `boundary`, each absent one read as its default. */
  function Boundary(data: Json): Option<Json> {
    if !data.Obj? then None
    else
      var range := GetOr(data.fields, "reachableRange", Obj([]));
      if !range.Obj? then None else Some(GetOr(range.fields, "boundary", Arr([])))
  }

  /** `isochrone_to_geojson`: every exception inside it becomes an error feature
      carrying the exception's text. */
  function IsochroneToGeoJson(data: Json, timeMinutes: int): (r: Feature)
    ensures Boundary(data).Some? && !Truthy(Boundary(data).value) ==> r == ErrorFeature("No boundary data")
    ensures r.Area? ==> Boundary(data).Some? && Boundary(data).value.Arr?
    ensures r.Area? <==>
      (Boundary(data).Some? && Boundary(data).value.Arr? && |Boundary(data).value.items| > 0
       && Coords(Boundary(data).value.items).Ok?)
    ensures r.Area? ==> r.timeMinutes == timeMinutes && r.timeSeconds == timeMinutes * 60
    ensures r.Area? ==> r.ring == CloseRing(Coords(Boundary(data).value.items).value)
  {
    if !data.Obj? then ErrorFeature(NoGet(data))
    else
      var range := GetOr(data.fields, "reachableRange", Obj([]));
      if !range.Obj? then ErrorFeature(NoGet(range))
      else
        var boundary := GetOr(range.fields, "boundary", Arr([]));
        if !Truthy(boundary) then ErrorFeature("No boundary data")
        else if !boundary.Arr? then
          match Iterate(boundary)
          case None => ErrorFeature("'" + TypeName(boundary) + "' object is not iterable")
          // the points of a string or a dict are strings: the first one raises
          case Some(points) => ErrorFeature(PointCoord(points[0]).error)
        else
          match Coords(boundary.items)
          case Failure(e) => ErrorFeature(e)
          case Ok(cs) =>
            Area(timeMinutes, timeMinutes * 60, GetOr(range.fields, "center", Obj([])),
                 IntToString(timeMinutes) + "-minute drive time area", CloseRing(cs))
  }

  /** An isochrone without a `reachableRange`, or whose range has no boundary or an
      empty one, gives the "No boundary data" feature. */
  lemma NoBoundaryData(data: Json, timeMinutes: int)
    requires data.Obj?
    requires !HasKey(data.fields, "reachableRange")
      || (GetOr(data.fields, "reachableRange", Null).Obj?
          && GetOr(GetOr(data.fields, "reachableRange", Null).fields, "boundary", Arr([])) == Arr([]))
    ensures IsochroneToGeoJson(data, timeMinutes) == ErrorFeature("No boundary data")
  {
  }

  /** The polygon's ring is the boundary's points as `[longitude, latitude]`, in
      order, closed: `n` pairs when the last point already equals the first, `n + 1`
      otherwise. */
  lemma PolygonRing(data: Json, timeMinutes: int)
    requires IsochroneToGeoJson(data, timeMinutes).Area?
    ensures var points := Boundary(data).value.items;
      var ring := IsochroneToGeoJson(data, timeMinutes).ring;
      |points| > 0 && (|ring| == |points| || |ring| == |points| + 1)
      && (forall i :: 0 <= i < |points| ==>
            Get(points[i].fields, "longitude") == Some(ring[i].lon)
            && Get(points[i].fields, "latitude") == Some(ring[i].lat))
      && SameCoord(ring[0], ring[|ring| - 1])
  {
    var points := Boundary(data).value.items;
    var cs := Coords(points).value;
    var ring := CloseRing(cs);
    forall i | 0 <= i < |points|
      ensures Get(points[i].fields, "longitude") == Some(ring[i].lon)
      ensures Get(points[i].fields, "latitude") == Some(ring[i].lat)
    {
      assert ring[i] == ring[..|cs|][i] == cs[i] == PointCoord(points[i]).value;
    }
    RingClosed(cs);
  }

  /** A malformed point gives an error feature carrying the text of the exception
      of the first such point, never an exception. */
  lemma MalformedPoint(data: Json, timeMinutes: int, k: nat)
    requires Boundary(data).Some? && Boundary(data).value.Arr?
    requires k < |Boundary(data).value.items|
    requires PointCoord(Boundary(data).value.items[k]).Failure?
    requires forall i :: 0 <= i < k ==> PointCoord(Boundary(data).value.items[i]).Ok?
    ensures IsochroneToGeoJson(data, timeMinutes) == ErrorFeature(PointCoord(Boundary(data).value.items[k]).error)
  {
    CoordsFirstFailure(Boundary(data).value.items, k);
  }

  /** The feature as the dict the source returns. */
  function FeatureToJson(f: Feature): (r: Json)
    ensures r.Obj? && Keys(r.fields) == ["type", "properties", "geometry"]
    ensures Get(r.fields, "type") == Some(Str("Feature"))
    ensures (Get(r.fields, "geometry") == Some(Null)) <==> f.ErrorFeature?
  {
    match f
    case ErrorFeature(e) =>
      var fs := [("type", Str("Feature")), ("properties", Obj([("error", Str(e))])), ("geometry", Null)];
      KeysAt(fs);
      GetDistinct(fs);
      Obj(fs)
    case Area(minutes, seconds, center, description, ring) =>
      var coordinates := seq(|ring|, i requires 0 <= i < |ring| => Arr([ring[i].lon, ring[i].lat]));
      var fs := [("type", Str("Feature")),
                 ("properties", Obj([("timeMinutes", Int(minutes)), ("timeSeconds", Int(seconds)),
                                     ("center", center), ("description", Str(description))])),
                 ("geometry", Obj([("type", Str("Polygon")), ("coordinates", Arr([Arr(coordinates)]))]))];
      KeysAt(fs);
      GetDistinct(fs);
      Obj(fs)
  }
}
