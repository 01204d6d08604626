/** The file-based TTL cache of the Fabric data agent responses: one JSON file per
    cache key in the cache directory. The directory is a map from file name to file
    contents, and the clock is a field in seconds. */
module FabricCache {
  import opened Wrappers
  import opened Json
  import Text

  const DefaultTtlHours: int := 72
  const SecondsPerHour: int := 3600
  /** 2000-01-01T00:00:00 in seconds since the epoch: the expiry an entry without
      `cache_expires_at` is given. */
  const LegacyExpiry: int := 946684800

  /** The keyword arguments of a cache call, as (name, value) pairs in the order they
      were passed. Every call site passes strings; the empty string is the falsy value. */
  type Kwargs = seq<(string, string)>

  /** Python keyword names are distinct. */
  predicate UniqueNames(kw: Kwargs) {
    forall i, j :: 0 <= i < j < |kw| ==> kw[i].0 != kw[j].0
  }

  // ---------------------------------------------------------------- string order

  /** Python's `a < b` on strings: lexicographic by code point. */
  predicate Before(a: string, b: string)
    decreases |a|
  {
    |b| > 0 && (|a| == 0 || a[0] < b[0] || (a[0] == b[0] && Before(a[1..], b[1..])))
  }

  lemma {:induction false} BeforeIrreflexive(a: string)
    ensures !Before(a, a)
    decreases |a|
  {
    if |a| > 0 {
      BeforeIrreflexive(a[1..]);
    }
  }

  lemma {:induction false} BeforeTrans(a: string, b: string, c: string)
    requires Before(a, b) && Before(b, c)
    ensures Before(a, c)
    decreases |a|
  {
    if |a| > 0 && a[0] == b[0] && b[0] == c[0] {
      BeforeTrans(a[1..], b[1..], c[1..]);
    }
  }

  lemma {:induction false} BeforeTotal(a: string, b: string)
    requires a != b
    ensures Before(a, b) || Before(b, a)
    decreases |a|
  {
    if |a| > 0 && |b| > 0 && a[0] == b[0] {
      assert a == [a[0]] + a[1..] && b == [b[0]] + b[1..];
      BeforeTotal(a[1..], b[1..]);
    }
  }

  lemma BeforeAsym(a: string, b: string)
    requires Before(a, b)
    ensures !Before(b, a)
  {
    if Before(b, a) {
      BeforeTrans(a, b, a);
      BeforeIrreflexive(a);
    }
  }

  // ---------------------------------------------------------------- sorted(kwargs.items())

  /** Inserts one pair into a list sorted by name. */
  function Insert(x: (string, string), s: Kwargs): (r: Kwargs)
    ensures multiset(r) == multiset(s) + multiset{x}
  {
    if |s| == 0 then [x]
    else if Before(s[0].0, x.0) then
      assert s == [s[0]] + s[1..];
      [s[0]] + Insert(x, s[1..])
    else [x] + s
  }

  /** `sorted(kwargs.items())`: the pairs ordered by name (names are distinct, so the
      values never decide). */
  function SortByName(kw: Kwargs): (r: Kwargs)
    ensures multiset(r) == multiset(kw)
  {
    if |kw| == 0 then []
    else
      assert kw == [kw[0]] + kw[1..];
      Insert(kw[0], SortByName(kw[1..]))
  }

  predicate StrictlySorted(s: Kwargs) {
    forall i, j :: 0 <= i < j < |s| ==> Before(s[i].0, s[j].0)
  }

  lemma {:induction false} InsertSorted(x: (string, string), s: Kwargs)
    requires StrictlySorted(s)
    requires forall i :: 0 <= i < |s| ==> s[i].0 != x.0
    ensures StrictlySorted(Insert(x, s))
  {
    if |s| > 0 {
      if Before(s[0].0, x.0) {
        InsertSorted(x, s[1..]);
        var r := Insert(x, s[1..]);
        forall y | y in r
          ensures Before(s[0].0, y.0)
        {
          assert y in multiset(r);
          if y != x {
            assert y in s[1..];
          }
        }
        assert Insert(x, s) == [s[0]] + r;
      } else {
        BeforeTotal(x.0, s[0].0);
        forall j | 0 <= j < |s|
          ensures Before(x.0, s[j].0)
        {
          if j > 0 {
            BeforeTrans(x.0, s[0].0, s[j].0);
          }
        }
      }
    }
  }

  lemma {:induction false} SortSorted(kw: Kwargs)
    requires UniqueNames(kw)
    ensures StrictlySorted(SortByName(kw))
  {
    if |kw| > 0 {
      SortSorted(kw[1..]);
      var t := SortByName(kw[1..]);
      forall i | 0 <= i < |t|
        ensures t[i].0 != kw[0].0
      {
        assert t[i] in multiset(kw[1..]);
      }
      InsertSorted(kw[0], t);
    }
  }

  /** Two strictly sorted lists with the same elements start with the same element. */
  lemma SortedHeads(s: Kwargs, t: Kwargs)
    requires StrictlySorted(s) && StrictlySorted(t)
    requires multiset(s) == multiset(t)
    requires |s| > 0
    ensures |t| > 0 && s[0] == t[0]
  {
    assert s[0] in multiset(t);
    var i :| 0 <= i < |t| && t[i] == s[0];
    assert t[0] in multiset(s);
    var j :| 0 <= j < |s| && s[j] == t[0];
    if s[0] != t[0] {
      assert Before(t[0].0, s[0].0);
      BeforeAsym(t[0].0, s[0].0);
      assert false;
    }
  }

  /** Two strictly sorted lists with the same elements are the same list. */
  lemma {:induction false} SortedUnique(s: Kwargs, t: Kwargs)
    requires StrictlySorted(s) && StrictlySorted(t)
    requires multiset(s) == multiset(t)
    ensures s == t
  {
    if |s| == 0 {
      assert |multiset(t)| == 0;
    } else {
      SortedHeads(s, t);
      assert s == [s[0]] + s[1..];
      assert t == [t[0]] + t[1..];
      var x := s[0];
      assert multiset(s) == multiset{x} + multiset(s[1..]);
      assert multiset(t) == multiset{x} + multiset(t[1..]);
      assert multiset(s[1..]) == multiset(s) - multiset{x};
      assert multiset(t[1..]) == multiset(t) - multiset{x};
      SortedUnique(s[1..], t[1..]);
    }
  }

  /** Reordering the keyword arguments does not change their sorted order. */
  lemma SortOrderIndependent(kw1: Kwargs, kw2: Kwargs)
    requires UniqueNames(kw1) && UniqueNames(kw2)
    requires multiset(kw1) == multiset(kw2)
    ensures SortByName(kw1) == SortByName(kw2)
  {
    SortSorted(kw1);
    SortSorted(kw2);
    SortedUnique(SortByName(kw1), SortByName(kw2));
  }

  // ---------------------------------------------------------------- _get_cache_key

  /** `str(v)` of every truthy value, in order. */
  function Values(s: Kwargs): (r: seq<string>)
    ensures |r| <= |s|
    ensures forall i :: 0 <= i < |r| ==> r[i] != ""
  {
    if |s| == 0 then []
    else (if s[0].1 != "" then [s[0].1] else []) + Values(s[1..])
  }

  lemma {:induction false} ValuesSnoc(s: Kwargs, i: nat)
    requires i < |s|
    ensures Values(s[..i + 1]) == Values(s[..i]) + (if s[i].1 != "" then [s[i].1] else [])
  {
    if i > 0 {
      ValuesSnoc(s[1..], i - 1);
      assert s[1..][..i] == s[..i + 1][1..];
      assert s[1..][..i - 1] == s[..i][1..];
    }
  }

  /** A falsy value contributes nothing, wherever it is inserted. */
  lemma {:induction false} ValuesInsertFalsy(x: (string, string), s: Kwargs)
    requires x.1 == ""
    ensures Values(Insert(x, s)) == Values(s)
  {
    if |s| > 0 && Before(s[0].0, x.0) {
      ValuesInsertFalsy(x, s[1..]);
      assert ([s[0]] + Insert(x, s[1..]))[1..] == Insert(x, s[1..]);
    } else {
      assert ([x] + s)[1..] == s;
    }
  }

  function KeyParts(functionId: string, caseId: string, kw: Kwargs): seq<string> {
    ["fabric_" + functionId, caseId] + Values(SortByName(kw))
  }

  /** `_get_cache_key`: "fabric_{id}", the case id and the truthy values sorted by
      keyword name, joined with "_", then ".json". */
  function CacheKey(functionId: string, caseId: string, kw: Kwargs): (key: string)
    ensures Text.StartsWith(key, "fabric_" + functionId + "_" + caseId)
    ensures Text.EndsWith(key, ".json")
  {
    var parts := KeyParts(functionId, caseId, kw);
    var rest := Text.Join(parts[1..], "_");
    assert |parts[1..]| > 1 ==> rest == caseId + "_" + Text.Join(parts[2..], "_");
    assert Text.Join(parts, "_") == "fabric_" + functionId + "_" + rest;
    Text.Join(parts, "_") + ".json"
  }

  /** The key does not depend on the order in which the keyword arguments are passed. */
  lemma CacheKeyOrderIndependent(functionId: string, caseId: string, kw1: Kwargs, kw2: Kwargs)
    requires UniqueNames(kw1) && UniqueNames(kw2)
    requires multiset(kw1) == multiset(kw2)
    ensures CacheKey(functionId, caseId, kw1) == CacheKey(functionId, caseId, kw2)
  {
    SortOrderIndependent(kw1, kw2);
  }

  /** A keyword argument with a falsy value leaves the key as it is. */
  lemma CacheKeySkipsFalsy(functionId: string, caseId: string, kw: Kwargs, name: string)
    requires UniqueNames(kw)
    requires forall i :: 0 <= i < |kw| ==> kw[i].0 != name
    ensures CacheKey(functionId, caseId, kw + [(name, "")]) == CacheKey(functionId, caseId, kw)
  {
    var x := (name, "");
    assert UniqueNames([x] + kw);
    assert UniqueNames(kw + [x]);
    assert multiset(kw + [x]) == multiset([x] + kw);
    SortOrderIndependent(kw + [x], [x] + kw);
    assert ([x] + kw)[1..] == kw;
    ValuesInsertFalsy(x, SortByName(kw));
  }

  /** The sort puts `county` before `state`, so the property-summary key of case
      C-123 for county 48229 in Texas is this one. */
  lemma CacheKeyExample()
    ensures CacheKey("A", "C-123", [("state", "TX"), ("county", "48229")])
         == "fabric_A_C-123_48229_TX.json"
  {
    var kw := [("state", "TX"), ("county", "48229")];
    SortExample(kw);
    ValuesExample([("county", "48229"), ("state", "TX")]);
    assert KeyParts("A", "C-123", kw) == ["fabric_" + "A", "C-123", "48229", "TX"];
    JoinFour("fabric_" + "A", "C-123", "48229", "TX", "_");
    KeyTextExample();
  }

  lemma ValuesExample(sorted: Kwargs)
    requires sorted == [("county", "48229"), ("state", "TX")]
    ensures Values(sorted) == ["48229", "TX"]
  {
    assert sorted[1..][1..] == [];
  }

  lemma KeyTextExample()
    ensures "fabric_" + "A" + "_" + "C-123" + "_" + "48229" + "_" + "TX" + ".json" == "fabric_A_C-123_48229_TX.json"
  {
  }

  lemma SortExample(kw: Kwargs)
    requires kw == [("state", "TX"), ("county", "48229")]
    ensures SortByName(kw) == [("county", "48229"), ("state", "TX")]
  {
    assert Before("county", "state");
    assert kw[1..][1..] == [];
    assert SortByName(kw[1..]) == [("county", "48229")];
  }

  lemma JoinFour(a: string, b: string, c: string, d: string, sep: string)
    ensures Text.Join([a, b, c, d], sep) == a + sep + b + sep + c + sep + d
  {
    assert [c, d][1..] == [d];
    assert Text.Join([c, d], sep) == c + sep + d;
    assert [b, c, d][1..] == [c, d];
    assert Text.Join([b, c, d], sep) == b + sep + (c + sep + d);
    assert [a, b, c, d][1..] == [b, c, d];
  }

  /** `_get_cache_key`, with its loop over the sorted items. */
  method GetCacheKey(functionId: string, caseId: string, kw: Kwargs) returns (key: string)
    ensures key == CacheKey(functionId, caseId, kw)
  {
    var head := ["fabric_" + functionId, caseId];
    var parts := head;
    var items := SortByName(kw);
    var i := 0;
    while i < |items|
      invariant 0 <= i <= |items|
      invariant parts == head + Values(items[..i])
    {
      PartsStep(head, items, i, parts);
      if items[i].1 != "" {
        parts := parts + [items[i].1];
      }
      i := i + 1;
    }
    assert items[..|items|] == items;
    key := Text.Join(parts, "_") + ".json";
  }

  /** One turn of the loop in `GetCacheKey`: appending the next truthy value keeps the
      parts equal to the head followed by the values seen. */
  lemma PartsStep(head: seq<string>, items: Kwargs, i: nat, parts: seq<string>)
    requires i < |items| && parts == head + Values(items[..i])
    ensures (if items[i].1 != "" then parts + [items[i].1] else parts) == head + Values(items[..i + 1])
  {
    ValuesSnoc(items, i);
  }

  // ---------------------------------------------------------------- the cache files

  /** A cache file: one that is not valid JSON, or a decoded document. */
  datatype CacheFile = Corrupt | Stored(doc: Json)

  /** What `get_cached_response` finds under a key. */
  datatype Lookup = Miss | Unreadable | Expired | Hit(entry: Fields)

  /** `cached.get("cache_expires_at", "2000-01-01")` parsed; `None` when the document is
      not a dict or the value is not a timestamp (the read raises and is caught). */
  function ExpiryOf(doc: Json): (r: Option<int>)
    ensures doc.Obj? && !HasKey(doc.fields, "cache_expires_at") ==> r == Some(LegacyExpiry)
    ensures r.Some? && doc.Obj? && HasKey(doc.fields, "cache_expires_at") ==>
      Get(doc.fields, "cache_expires_at") == Some(Int(r.value))
    ensures !doc.Obj? ==> r.None?
  {
    if !doc.Obj? then None
    else
      match Get(doc.fields, "cache_expires_at")
      case None => Some(LegacyExpiry)
      case Some(Int(t)) => Some(t)
      case Some(_) => None
  }

  /** The read of `get_cached_response`: absent, unreadable, expired (strictly past the
      expiry) or a hit. */
  function Find(files: map<string, CacheFile>, now: int, key: string): (r: Lookup)
    ensures r.Miss? <==> key !in files
    ensures r.Hit? ==> key in files && files[key] == Stored(Obj(r.entry))
                       && ExpiryOf(Obj(r.entry)).Some? && now <= ExpiryOf(Obj(r.entry)).value
    ensures r.Expired? ==> key in files && files[key].Stored?
                           && ExpiryOf(files[key].doc).Some? && now > ExpiryOf(files[key].doc).value
    ensures r.Unreadable? ==> key in files && (files[key].Corrupt? || ExpiryOf(files[key].doc).None?)
  {
    if key !in files then Miss
    else match files[key]
      case Corrupt => Unreadable
      case Stored(doc) =>
        match ExpiryOf(doc)
        case None => Unreadable
        case Some(expires) => if now > expires then Expired else Hit(doc.fields)
  }

  /** The directory after a read: an expired file is deleted, nothing else changes. */
  function AfterFind(files: map<string, CacheFile>, now: int, key: string): map<string, CacheFile> {
    if Find(files, now, key).Expired? then files - {key} else files
  }

  /** The value `get_cached_response` returns. */
  function Cached(found: Lookup): (r: Option<Fields>)
    ensures r.Some? <==> found.Hit?
    ensures r.Some? ==> r.value == found.entry
  {
    if found.Hit? then Some(found.entry) else None
  }

  function ParamsJson(kw: Kwargs): (r: Fields)
    ensures |r| == |kw|
  {
    seq(|kw|, i requires 0 <= i < |kw| => (kw[i].0, Str(kw[i].1)))
  }

  /** The document `set_cached_response` writes. */
  function Payload(functionId: string, caseId: string, data: Json, now: int, ttlHours: int, kw: Kwargs): (r: Fields)
    ensures Get(r, "function_id") == Some(Str(functionId)) && Get(r, "case_id") == Some(Str(caseId))
    ensures Get(r, "cache_params") == Some(Obj(ParamsJson(kw)))
  {
    var p := [("function_id", Str(functionId)), ("case_id", Str(caseId)), ("response_data", data),
              ("cached_at", Int(now)), ("cache_expires_at", Int(now + ttlHours * SecondsPerHour)),
              ("cache_params", Obj(ParamsJson(kw)))];
    GetAt(p, 1);
    GetAt(p, 5);
    p
  }

  /** The fields of a payload read back: the data, the write time, and an expiry
      `ttl` hours after it. */
  lemma PayloadFields(functionId: string, caseId: string, data: Json, now: int, ttlHours: int, kw: Kwargs)
    ensures Get(Payload(functionId, caseId, data, now, ttlHours, kw), "response_data") == Some(data)
    ensures Get(Payload(functionId, caseId, data, now, ttlHours, kw), "cached_at") == Some(Int(now))
    ensures Get(Payload(functionId, caseId, data, now, ttlHours, kw), "cache_expires_at")
         == Some(Int(now + ttlHours * SecondsPerHour))
    ensures ExpiryOf(Obj(Payload(functionId, caseId, data, now, ttlHours, kw)))
         == Some(now + ttlHours * SecondsPerHour)
  {
    var p := Payload(functionId, caseId, data, now, ttlHours, kw);
    GetAt(p, 2);
    GetAt(p, 3);
    GetAt(p, 4);
  }

  /** After a write, a read up to the expiry finds the payload, which carries the
      data and an expiry `ttl` hours after its write time. */
  lemma SetThenGet(files: map<string, CacheFile>, functionId: string, caseId: string, data: Json,
                   written: int, ttlHours: int, kw: Kwargs, now: int)
    requires written <= now <= written + ttlHours * SecondsPerHour
    ensures var key := CacheKey(functionId, caseId, kw);
            var p := Payload(functionId, caseId, data, written, ttlHours, kw);
            Find(files[key := Stored(Obj(p))], now, key) == Hit(p)
            && Get(p, "response_data") == Some(data)
  {
    PayloadFields(functionId, caseId, data, written, ttlHours, kw);
  }

  /** After the expiry the same entry is expired, and reading it deletes it. */
  lemma SetThenExpire(files: map<string, CacheFile>, functionId: string, caseId: string, data: Json,
                      written: int, ttlHours: int, kw: Kwargs, now: int)
    requires now > written + ttlHours * SecondsPerHour
    ensures var key := CacheKey(functionId, caseId, kw);
            var p := Payload(functionId, caseId, data, written, ttlHours, kw);
            Find(files[key := Stored(Obj(p))], now, key) == Expired
            && key !in AfterFind(files[key := Stored(Obj(p))], now, key)
  {
    PayloadFields(functionId, caseId, data, written, ttlHours, kw);
  }

  /** An entry is a hit exactly while the clock has not passed its expiry. */
  lemma ExpiryIsStrict(files: map<string, CacheFile>, key: string, fs: Fields, now: int)
    requires key in files && files[key] == Stored(Obj(fs))
    requires ExpiryOf(Obj(fs)).Some?
    ensures Find(files, now, key) == Hit(fs) <==> now <= ExpiryOf(Obj(fs)).value
    ensures Find(files, now, key) == Expired <==> now > ExpiryOf(Obj(fs)).value
  {
  }

  /** An entry written without an expiry counts as expired at 2000-01-01. */
  lemma LegacyEntryExpired(files: map<string, CacheFile>, key: string, fs: Fields, now: int)
    requires key in files && files[key] == Stored(Obj(fs))
    requires forall i :: 0 <= i < |fs| ==> fs[i].0 != "cache_expires_at"
    requires now > LegacyExpiry
    ensures Find(files, now, key) == Expired
  {
    Absent(fs, "cache_expires_at");
  }

  /** The cache directory, its clock, and whether files can be written to it. */
  class Cache {
    var files: map<string, CacheFile>
    var now: int
    var writable: bool

    constructor(clock: int, canWrite: bool)
      ensures files == map[] && now == clock && writable == canWrite
    {
      files := map[];
      now := clock;
      writable := canWrite;
    }

    /** Time passes. */
    method Tick(seconds: nat)
      modifies this
      ensures now == old(now) + seconds
      ensures files == old(files) && writable == old(writable)
    {
      now := now + seconds;
    }

    /** `get_cached_response`: the cached payload while it is fresh; `None` when the
        file is missing, unreadable or expired, and an expired file is deleted. */
    method GetCachedResponse(functionId: string, caseId: string, kw: Kwargs) returns (r: Option<Fields>)
      modifies this
      ensures r == Cached(Find(old(files), now, CacheKey(functionId, caseId, kw)))
      ensures files == AfterFind(old(files), now, CacheKey(functionId, caseId, kw))
      ensures now == old(now) && writable == old(writable)
    {
      var key := GetCacheKey(functionId, caseId, kw);
      if key !in files {
        return None;
      }
      match files[key]
      case Corrupt =>
        r := None;
      case Stored(doc) =>
        var expires := ExpiryOf(doc);
        if expires.None? {
          r := None;
        } else if now > expires.value {
          files := files - {key};
          r := None;
        } else {
          r := Some(doc.fields);
        }
    }

    /** `set_cached_response`: writes the payload under the key; a failed write leaves
        the directory as it was and raises nothing. */
    method SetCachedResponse(functionId: string, caseId: string, data: Json, ttlHours: int, kw: Kwargs)
      modifies this
      ensures files == if writable
                       then old(files)[CacheKey(functionId, caseId, kw)
                                       := Stored(Obj(Payload(functionId, caseId, data, now, ttlHours, kw)))]
                       else old(files)
      ensures now == old(now) && writable == old(writable)
    {
      var key := GetCacheKey(functionId, caseId, kw);
      var payload := Payload(functionId, caseId, data, now, ttlHours, kw);
      if writable {
        files := files[key := Stored(Obj(payload))];
      }
    }

    /** `invalidate_cache`: deletes the file and says whether it existed. */
    method InvalidateCache(functionId: string, caseId: string, kw: Kwargs) returns (existed: bool)
      modifies this
      ensures existed == (CacheKey(functionId, caseId, kw) in old(files))
      ensures files == old(files) - {CacheKey(functionId, caseId, kw)}
      ensures now == old(now) && writable == old(writable)
    {
      var key := GetCacheKey(functionId, caseId, kw);
      existed := key in files;
      if existed {
        files := files - {key};
      }
    }
  }
}
