/** The CORS part of the application settings: the default origin list and the
    validator that reads a comma-separated origin string into a list. */
module Config {
  import opened Wrappers
  import opened Text
  import opened Json

  /** The default of `cors_origins`. */
  const DefaultCorsOrigins: seq<string> := ["http://localhost:3000"]

  /** An entry the validator can produce: stripped, not empty, without a comma. */
  predicate CleanOrigin(o: string) {
    |o| > 0 && IsStripped(o) && ',' !in o
  }

  /** `f` applied to every part, in order; `StripEach` is `o.strip()` for every
      part. Stated for any `f`, so that the list lemmas never unfold `Strip`. */
  function MapEach(f: string -> string, parts: seq<string>): (r: seq<string>)
    ensures |r| == |parts|
    ensures forall i :: 0 <= i < |parts| ==> r[i] == f(parts[i])
  {
    seq(|parts|, i requires 0 <= i < |parts| => f(parts[i]))
  }

  function StripEach(parts: seq<string>): seq<string> {
    MapEach(Strip, parts)
  }

  /** Every entry of `StripEach` is stripped. */
  lemma StripEachStripped(parts: seq<string>)
    ensures forall i :: 0 <= i < |parts| ==> IsStripped(StripEach(parts)[i])
  {
    forall i | 0 <= i < |parts| ensures IsStripped(StripEach(parts)[i]) {
      assert StripEach(parts)[i] == Strip(parts[i]);
    }
  }

  /** Stripping adds no comma. */
  lemma StripEachFree(parts: seq<string>)
    requires forall i :: 0 <= i < |parts| ==> ',' !in parts[i]
    ensures forall i :: 0 <= i < |parts| ==> ',' !in StripEach(parts)[i]
  {
    forall i | 0 <= i < |parts| ensures ',' !in StripEach(parts)[i] {
      StripWithout(parts[i], ',');
    }
  }

  /** The `if o.strip()` filter: the non-empty entries, in order. */
  function NonBlank(xs: seq<string>): (r: seq<string>)
    ensures |r| <= |xs|
  {
    if |xs| == 0 then []
    else if |xs[0]| > 0 then [xs[0]] + NonBlank(xs[1..])
    else NonBlank(xs[1..])
  }

  /** The filter keeps entries as they are, so stripped comma-free entries give
      clean origins. */
  lemma {:induction false} NonBlankClean(xs: seq<string>)
    requires forall i :: 0 <= i < |xs| ==> IsStripped(xs[i]) && ',' !in xs[i]
    ensures forall i :: 0 <= i < |NonBlank(xs)| ==> CleanOrigin(NonBlank(xs)[i])
  {
    if |xs| > 0 {
      assert forall i :: 0 <= i < |xs| - 1 ==> xs[1..][i] == xs[i + 1];
      NonBlankClean(xs[1..]);
      var t := NonBlank(xs[1..]);
      if |xs[0]| > 0 {
        assert forall i :: 1 <= i < |t| + 1 ==> ([xs[0]] + t)[i] == t[i - 1];
      }
    }
  }

  /** The filter works entry by entry, keeping the order. */
  lemma {:induction false} NonBlankConcat(p: seq<string>, q: seq<string>)
    ensures NonBlank(p + q) == NonBlank(p) + NonBlank(q)
  {
    if |p| > 0 {
      assert (p + q)[0] == p[0];
      assert (p + q)[1..] == p[1..] + q;
      NonBlankConcat(p[1..], q);
    } else {
      assert p + q == q;
    }
  }

  /** Nothing is dropped from a list without empty entries. */
  lemma {:induction false} NonBlankAll(xs: seq<string>)
    requires forall i :: 0 <= i < |xs| ==> |xs[i]| > 0
    ensures NonBlank(xs) == xs
  {
    if |xs| > 0 {
      assert forall i :: 0 <= i < |xs| - 1 ==> xs[1..][i] == xs[i + 1];
      NonBlankAll(xs[1..]);
      assert [xs[0]] + xs[1..] == xs;
    }
  }

  /** `parse_origins` on a string: `[o.strip() for o in value.split(",") if
      o.strip()]`. */
  function OriginsFromText(s: string): (r: seq<string>)
    ensures forall i :: 0 <= i < |r| ==> CleanOrigin(r[i])
  {
    var parts := Split(s, ',');
    SplitPartsFree(s, ',');
    StripEachFree(parts);
    StripEachStripped(parts);
    NonBlankClean(StripEach(parts));
    NonBlank(StripEach(parts))
  }

  /** The entries of a text are those before its first comma followed by those
      after it. */
  lemma OriginsOrder(a: string, b: string)
    requires ',' !in a
    ensures OriginsFromText(a + [','] + b) == OriginsFromText(a) + OriginsFromText(b)
  {
    SplitAfterPart(a, b, ',');
    var pb := Split(b, ',');
    MapEachConcat(Strip, [a], pb);
    NonBlankConcat(StripEach([a]), StripEach(pb));
  }

  lemma MapEachConcat(f: string -> string, p: seq<string>, q: seq<string>)
    ensures MapEach(f, p + q) == MapEach(f, p) + MapEach(f, q)
  {
    var l, r := MapEach(f, p + q), MapEach(f, p) + MapEach(f, q);
    forall i | 0 <= i < |l| ensures l[i] == r[i] {
      if i < |p| {
        assert (p + q)[i] == p[i];
      } else {
        assert (p + q)[i] == q[i - |p|];
      }
    }
  }

  /** A text without a comma gives its stripped form, or nothing when it is blank. */
  lemma OriginsOne(a: string)
    requires ',' !in a
    ensures OriginsFromText(a) == if |Strip(a)| == 0 then [] else [Strip(a)]
  {
    assert Split(a, ',') == [a];
    MapEachOne(Strip, a);
    NonBlankOne(Strip(a));
  }

  lemma MapEachOne(f: string -> string, x: string)
    ensures MapEach(f, [x]) == [f(x)]
  {
  }

  lemma NonBlankOne(x: string)
    ensures NonBlank([x]) == if |x| == 0 then [] else [x]
  {
    assert [x][1..] == [];
  }

  /** A blank entry before a comma is dropped. */
  lemma BlankDropped(a: string, b: string)
    requires ',' !in a && AllSpace(a)
    ensures OriginsFromText(a + [','] + b) == OriginsFromText(b)
  {
    OriginsOrder(a, b);
    OriginsOne(a);
    StripAround(a, "", "");
    assert a + "" + "" == a;
  }

  /** Writing a list of clean origins with commas and parsing it gives the list
      back. */
  lemma OriginsRoundTrip(origins: seq<string>)
    requires |origins| >= 1
    requires forall i :: 0 <= i < |origins| ==> CleanOrigin(origins[i])
    ensures OriginsFromText(Join(origins, [','])) == origins
  {
    SplitJoin(origins, ',');
    forall i | 0 <= i < |origins| ensures StripEach(origins)[i] == origins[i] {
      StripStripped(origins[i]);
    }
    assert StripEach(origins) == origins;
    NonBlankAll(origins);
  }

  /** `Settings.parse_origins`: a string becomes the list of its entries; every
      other value is handed on untouched. */
  function ParseOrigins(value: Json): (r: Json)
    ensures value.Str? ==> r == StrArr(OriginsFromText(value.s))
    ensures !value.Str? ==> r == value
  {
    match value
    case Str(s) => StrArr(OriginsFromText(s))
    case _ => value
  }

  /** `cors_origins` as the settings end with it: the default when the setting is
      not given, else the validator's output checked as a `list[str]`. */
  function CorsOrigins(given: Option<Json>): (r: Result<seq<string>>)
    ensures given.None? ==> r == Ok(DefaultCorsOrigins)
    ensures given.Some? && given.value.Str? ==> r == Ok(OriginsFromText(given.value.s))
    ensures given.Some? && !given.value.Str? ==> r == StrList(given.value)
  {
    match given
    case None => Ok(DefaultCorsOrigins)
    case Some(v) =>
      StrListRoundTrip(if v.Str? then OriginsFromText(v.s) else []);
      StrList(ParseOrigins(v))
  }


  /** A comma-separated setting of clean origins gives exactly those origins. */
  lemma CorsOriginsFromText(origins: seq<string>)
    requires |origins| >= 1
    requires forall i :: 0 <= i < |origins| ==> CleanOrigin(origins[i])
    ensures CorsOrigins(Some(Str(Join(origins, [','])))) == Ok(origins)
  {
    OriginsRoundTrip(origins);
  }

  /** A setting already given as a list of strings is kept as it is. */
  lemma CorsOriginsFromList(origins: seq<string>)
    ensures CorsOrigins(Some(StrArr(origins))) == Ok(origins)
  {
    StrListRoundTrip(origins);
  }
}
