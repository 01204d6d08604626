/** Fabric function C, the county risk assessment: the normalisation of the data
    agent's loosely typed tables, the upgrade of legacy cache entries, and the
    cache-then-fetch service. */
module FabricRiskAssessment {
  import opened Wrappers
  import opened Json
  import Text
  import opened Schemas
  import opened FabricCache

  const CacheTtlHours: int := 72

  // ---------------------------------------------------------------- _coerce_int

  /** `_coerce_int`: `None` stays `None`, an int (a bool included) is kept, anything
      else goes through `int()`, whose failure gives `None`. */
  function CoerceInt(v: Json, b: Builtins): (r: Option<int>)
    ensures v.Null? ==> r.None?
    ensures v.Int? ==> r == Some(v.i)
    ensures !v.Null? ==> r == PyInt(v, b)
    ensures v.Arr? || v.Obj? ==> r.None?
  {
    match v
    case Null => None
    case Int(i) => Some(i)
    case Bool(x) => Some(if x then 1 else 0)
    case _ => PyInt(v, b)
  }

  // ---------------------------------------------------------------- rows

  /** The rows of a response that are dicts, in their order. */
  function DictRows(items: seq<Json>): (rows: seq<Fields>)
    ensures |rows| <= |items|
    ensures forall f :: f in rows <==> Obj(f) in items
  {
    if |items| == 0 then []
    else
      var rest := DictRows(items[1..]);
      assert forall f :: Obj(f) in items <==> Obj(f) == items[0] || Obj(f) in items[1..];
      (if items[0].Obj? then [items[0].fields] else []) + rest
  }

  /** Filtering keeps the order: it distributes over concatenation. */
  lemma {:induction false} DictRowsConcat(a: seq<Json>, c: seq<Json>)
    ensures DictRows(a + c) == DictRows(a) + DictRows(c)
  {
    if |a| == 0 {
      assert a + c == c;
    } else {
      assert (a + c)[1..] == a[1..] + c;
      DictRowsConcat(a[1..], c);
    }
  }

  /** `data.get("response")` when it is a list, else no rows. */
  function RawRows(fs: Fields): seq<Json> {
    match Get(fs, "response")
    case Some(Arr(items)) => items
    case _ => []
  }

  // ---------------------------------------------------------------- _derive_column_keys

  /** Every key of every row, rows first, then each row's keys in order. */
  function Flatten(rows: seq<Fields>): seq<string> {
    if |rows| == 0 then [] else Flatten(rows[..|rows| - 1]) + Keys(rows[|rows| - 1])
  }

  lemma {:induction false} FlattenMembers(rows: seq<Fields>, k: string)
    ensures k in Flatten(rows) <==> exists i :: 0 <= i < |rows| && k in Keys(rows[i])
  {
    if |rows| > 0 {
      var init := rows[..|rows| - 1];
      FlattenMembers(init, k);
      assert forall i :: 0 <= i < |init| ==> init[i] == rows[i];
      if k in Keys(rows[|rows| - 1]) {
        assert exists i :: 0 <= i < |rows| && k in Keys(rows[i]);
      }
      if exists i :: 0 <= i < |rows| && k in Keys(rows[i]) {
        var i :| 0 <= i < |rows| && k in Keys(rows[i]);
        if i < |rows| - 1 {
          assert k in Keys(init[i]);
        }
      }
    }
  }

  /** The distinct elements of `s`, each where it first occurs. */
  function Dedup(s: seq<string>): (r: seq<string>)
    ensures forall k :: k in r <==> k in s
    ensures forall i, j :: 0 <= i < j < |r| ==> r[i] != r[j]
  {
    if |s| == 0 then []
    else
      var d := Dedup(s[..|s| - 1]);
      assert s == s[..|s| - 1] + [s[|s| - 1]];
      if s[|s| - 1] in d then d else d + [s[|s| - 1]]
  }

  lemma DedupSnoc(s: seq<string>, k: string)
    ensures Dedup(s + [k]) == if k in Dedup(s) then Dedup(s) else Dedup(s) + [k]
  {
    assert (s + [k])[..|s|] == s;
  }

  /** The elements of `d` appear in `s` in the order they have in `d`. */
  predicate FirstOrdered(s: seq<string>, d: seq<string>) {
    forall i, j :: 0 <= i < j < |d| ==> Text.IndexOf(s, d[i]) < Text.IndexOf(s, d[j])
  }

  /** The keys come out in the order of their first occurrence. */
  lemma {:induction false} DedupFirstOccurrence(s: seq<string>)
    ensures forall i, j :: 0 <= i < j < |Dedup(s)| ==>
      Text.IndexOf(s, Dedup(s)[i]) < Text.IndexOf(s, Dedup(s)[j])
  {
    if |s| > 0 {
      var p := s[..|s| - 1];
      var x := s[|s| - 1];
      assert s == p + [x];
      DedupFirstOccurrence(p);
      var d := Dedup(p);
      assert FirstOrdered(p, d);
      forall k | k in p
        ensures Text.IndexOf(s, k) == Text.IndexOf(p, k) < |p|
      {
        Text.IndexOfConcat(p, [x], k);
      }
      OrderedExtend(s, p, d);
      DedupSnoc(p, x);
      if x !in p {
        Text.IndexOfConcat(p, [x], x);
        OrderedAppend(s, p, d, x);
      }
      assert FirstOrdered(s, Dedup(s));
    }
  }

  /** Order in a prefix carries over to the whole sequence. */
  lemma OrderedExtend(s: seq<string>, p: seq<string>, d: seq<string>)
    requires forall k :: k in d ==> k in p
    requires FirstOrdered(p, d)
    requires forall k :: k in p ==> Text.IndexOf(s, k) == Text.IndexOf(p, k) < |p|
    ensures FirstOrdered(s, d)
  {
    forall i, j | 0 <= i < j < |d|
      ensures Text.IndexOf(s, d[i]) < Text.IndexOf(s, d[j])
    {
      assert d[i] in d && d[j] in d;
    }
  }

  /** An element first met after the whole prefix may follow its elements. */
  lemma OrderedAppend(s: seq<string>, p: seq<string>, d: seq<string>, x: string)
    requires FirstOrdered(s, d)
    requires forall k :: k in d ==> k in p
    requires forall k :: k in p ==> Text.IndexOf(s, k) < |p|
    requires Text.IndexOf(s, x) == |p|
    ensures FirstOrdered(s, d + [x])
  {
    var r := d + [x];
    forall i, j | 0 <= i < j < |r|
      ensures Text.IndexOf(s, r[i]) < Text.IndexOf(s, r[j])
    {
      assert r[i] == d[i] && d[i] in d;
      if j < |d| {
        assert r[j] == d[j];
      }
    }
  }

  /** `_derive_column_keys(rows)`. */
  function DistinctKeys(rows: seq<Fields>): seq<string> {
    Dedup(Flatten(rows))
  }

  /** Each key that occurs in some row is listed exactly once, in the order it is
      first met scanning the rows and then their keys. */
  lemma DistinctKeysSpec(rows: seq<Fields>)
    ensures forall k :: k in DistinctKeys(rows) <==> exists i :: 0 <= i < |rows| && k in Keys(rows[i])
    ensures forall i, j :: 0 <= i < j < |DistinctKeys(rows)| ==> DistinctKeys(rows)[i] != DistinctKeys(rows)[j]
    ensures forall i, j :: 0 <= i < j < |DistinctKeys(rows)| ==>
      Text.IndexOf(Flatten(rows), DistinctKeys(rows)[i]) < Text.IndexOf(Flatten(rows), DistinctKeys(rows)[j])
  {
    forall k
      ensures k in DistinctKeys(rows) <==> exists i :: 0 <= i < |rows| && k in Keys(rows[i])
    {
      FlattenMembers(rows, k);
    }
    DedupFirstOccurrence(Flatten(rows));
  }

  /** `_derive_column_keys`, with its two nested loops. */
  method DeriveColumnKeys(rows: seq<Fields>) returns (ordered: seq<string>)
    ensures ordered == DistinctKeys(rows)
  {
    ordered := [];
    var i := 0;
    while i < |rows|
      invariant 0 <= i <= |rows|
      invariant ordered == Dedup(Flatten(rows[..i]))
    {
      var seen := Flatten(rows[..i]);
      var keys := Keys(rows[i]);
      var j := 0;
      assert seen + keys[..0] == seen;
      while j < |keys|
        invariant 0 <= j <= |keys|
        invariant ordered == Dedup(seen + keys[..j])
      {
        assert Dedup(seen + keys[..j + 1])
               == if keys[j] in ordered then ordered else ordered + [keys[j]] by {
          assert seen + keys[..j + 1] == seen + keys[..j] + [keys[j]];
          DedupSnoc(seen + keys[..j], keys[j]);
        }
        if keys[j] !in ordered {
          ordered := ordered + [keys[j]];
        }
        j := j + 1;
      }
      assert ordered == Dedup(Flatten(rows[..i + 1])) by {
        assert keys[..|keys|] == keys;
        FlattenSnoc(rows, i);
      }
      i := i + 1;
    }
    assert rows[..|rows|] == rows;
  }

  lemma FlattenSnoc(rows: seq<Fields>, i: nat)
    requires i < |rows|
    ensures Flatten(rows[..i + 1]) == Flatten(rows[..i]) + Keys(rows[i])
  {
    assert rows[..i + 1][..i] == rows[..i] && rows[..i + 1][i] == rows[i];
  }

  // ---------------------------------------------------------------- _build_agent_table

  /** `[str(key) for key in keys if isinstance(key, (str, int, float))]`; a bool is an
      int. */
  function KeyStrings(keys: seq<Json>, b: Builtins): (r: seq<string>)
    ensures |r| <= |keys|
  {
    if |keys| == 0 then []
    else
      var k := keys[0];
      (if k.Str? || k.Int? || k.Real? || k.Bool? then [PyStr(k, b).value] else []) + KeyStrings(keys[1..], b)
  }

  /** One key: a str, int, float or bool key is kept as `str(key)`; a list, a dict
      or `None` is dropped. */
  lemma KeyStringsOne(k: Json, b: Builtins)
    ensures KeyStrings([k], b) == if k.Str? || k.Int? || k.Real? || k.Bool? then [PyStr(k, b).value] else []
  {
    assert [k][1..] == [];
  }

  /** The keys of two lists are the keys of each, in order: the filter keeps the
      order of the list it is given. */
  lemma {:induction false} KeyStringsConcat(x: seq<Json>, y: seq<Json>, b: Builtins)
    ensures KeyStrings(x + y, b) == KeyStrings(x, b) + KeyStrings(y, b)
    decreases |x|
  {
    if |x| == 0 {
      assert x + y == y;
    } else {
      assert (x + y)[0] == x[0];
      assert (x + y)[1..] == x[1..] + y;
      KeyStringsConcat(x[1..], y, b);
    }
  }

  /** A list of strings is kept as it is. */
  lemma {:induction false} KeyStringsOfStrings(ks: seq<string>, b: Builtins)
    ensures KeyStrings(StrArr(ks).items, b) == ks
  {
    if |ks| > 0 {
      KeyStringsOfStrings(ks[1..], b);
      assert StrArr(ks).items[1..] == StrArr(ks[1..]).items;
      assert ks == [ks[0]] + ks[1..];
    }
  }

  /** The column keys a table gets: the given list when `column_keys` is a list,
      otherwise the keys derived from the kept rows. */
  function ColumnKeysOf(fs: Fields, rows: seq<Fields>, b: Builtins): seq<string> {
    match Get(fs, "column_keys")
    case Some(Arr(keys)) => KeyStrings(keys, b)
    case _ => DistinctKeys(rows)
  }

  /** `data.get("status") or "unknown"`. */
  function StatusOf(fs: Fields): (s: Json)
    ensures s == Str("unknown") || (Truthy(s) && Get(fs, "status") == Some(s))
  {
    var v := GetOr(fs, "status", Null);
    if Truthy(v) then v else Str("unknown")
  }

  /** `_coerce_int(data.get("rows")) or len(rows)`. */
  function RowCount(coerced: Option<int>, kept: nat): (n: int)
    ensures coerced in {None, Some(0)} ==> n == kept
    ensures coerced !in {None, Some(0)} ==> Some(n) == coerced
  {
    match coerced
    case Some(c) => if c != 0 then c else kept
    case None => kept
  }

  /** The `FabricAgentTable(...)` call of `_build_agent_table`, given the kept rows
      and the column keys: `None` when the status, summary or comments are not text. */
  function MakeTable(fs: Fields, rows: seq<Fields>, columnKeys: seq<string>, b: Builtins): Option<Table> {
    var status := StatusOf(fs);
    var summary := OptStrValue(GetOr(fs, "summary", Null));
    var comments := OptStrValue(GetOr(fs, "comments", Null));
    if status.Str? && summary.Ok? && comments.Ok? then
      Some(Table(status.s, CoerceInt(GetOr(fs, "columns", Null), b),
                 Some(RowCount(CoerceInt(GetOr(fs, "rows", Null), b), |rows|)),
                 summary.value, comments.value, rows, columnKeys))
    else None
  }

  /** `_build_agent_table`: the table built from an agent response, or `None` when the
      response is not a dict or the table does not validate. */
  function AgentTable(data: Json, b: Builtins): (r: Option<Table>)
    ensures !data.Obj? ==> r.None?
    ensures r.Some? <==> data.Obj? && StatusOf(data.fields).Str?
                         && OptStrValue(GetOr(data.fields, "summary", Null)).Ok?
                         && OptStrValue(GetOr(data.fields, "comments", Null)).Ok?
    ensures r.Some? ==> Str(r.value.status) == StatusOf(data.fields)
    ensures r.Some? && !Truthy(GetOr(data.fields, "status", Null)) ==> r.value.status == "unknown"
    ensures r.Some? ==> r.value.response == DictRows(RawRows(data.fields))
    ensures r.Some? ==> r.value.columnKeys == ColumnKeysOf(data.fields, r.value.response, b)
    ensures r.Some? ==> r.value.columnCount == CoerceInt(GetOr(data.fields, "columns", Null), b)
    ensures r.Some? ==> r.value.rowCount
                        == Some(RowCount(CoerceInt(GetOr(data.fields, "rows", Null), b), |r.value.response|))
  {
    if !data.Obj? then None
    else
      var rows := DictRows(RawRows(data.fields));
      MakeTable(data.fields, rows, ColumnKeysOf(data.fields, rows, b), b)
  }

  /** The row loop of `_build_agent_table`: the dict rows, in order. */
  method KeepDictRows(raw: seq<Json>) returns (rows: seq<Fields>)
    ensures rows == DictRows(raw)
  {
    rows := [];
    var i := 0;
    while i < |raw|
      invariant 0 <= i <= |raw|
      invariant rows == DictRows(raw[..i])
    {
      DictRowsConcat(raw[..i], [raw[i]]);
      assert raw[..i + 1] == raw[..i] + [raw[i]];
      if raw[i].Obj? {
        rows := rows + [raw[i].fields];
      }
      i := i + 1;
    }
    assert raw[..|raw|] == raw;
  }

  /** `_build_agent_table`. */
  method BuildAgentTable(data: Json, b: Builtins) returns (table: Option<Table>)
    ensures table == AgentTable(data, b)
  {
    if !data.Obj? {
      return None;
    }
    var fs := data.fields;
    var rows := KeepDictRows(RawRows(fs));
    var columnKeys: seq<string>;
    match Get(fs, "column_keys") {
      case Some(Arr(keys)) =>
        columnKeys := KeyStrings(keys, b);
      case _ =>
        columnKeys := DeriveColumnKeys(rows);
    }
    table := MakeTable(fs, rows, columnKeys, b);
  }

  /** `_table_has_rows`. */
  predicate TableHasRows(t: Option<Table>) {
    t.Some? && |t.value.response| > 0
  }

  /** A built agent table has rows exactly when the response list holds a dict; a
      table rebuilt from legacy rows always has rows. */
  lemma TableHasRowsSpec(data: Json, legacy: Json, b: Builtins)
    ensures AgentTable(data, b).Some? ==>
      (TableHasRows(AgentTable(data, b)) <==> exists i :: 0 <= i < |RawRows(data.fields)| && RawRows(data.fields)[i].Obj?)
    ensures LegacyTable(legacy).Some? ==> TableHasRows(LegacyTable(legacy))
  {
    var t := AgentTable(data, b);
    if t.Some? {
      var items := RawRows(data.fields);
      if |t.value.response| > 0 {
        assert t.value.response[0] in t.value.response;
        var i :| 0 <= i < |items| && items[i] == Obj(t.value.response[0]);
      }
      if exists i :: 0 <= i < |items| && items[i].Obj? {
        var i :| 0 <= i < |items| && items[i].Obj?;
        assert Obj(items[i].fields) in items;
        assert items[i].fields in t.value.response;
      }
    }
    if LegacyTable(legacy).Some? {
      assert |ObjArr(LegacyTable(legacy).value.response).items| > 0;
    }
  }

  // ---------------------------------------------------------------- _upgrade_cached_payload

  /** The table a legacy entry's bare row list becomes; `None` where the source raises
      (the rows are not a list of dicts). */
  function LegacyTable(rows: Json): (r: Option<Table>)
    ensures r.Some? <==> rows.Arr? && |rows.items| > 0 && forall i :: 0 <= i < |rows.items| ==> rows.items[i].Obj?
    ensures r.Some? ==> r.value.status == "success" && r.value.rowCount == Some(|rows.items|)
                        && r.value.columnCount == Some(|rows.items[0].fields|)
                        && r.value.columnKeys == DistinctKeys(r.value.response)
                        && ObjArr(r.value.response) == rows
  {
    match ObjList(rows)
    case Ok(objs) =>
      if |objs| > 0 then
        Some(Table("success", Some(|objs[0]|), Some(|objs|), None, None, objs, DistinctKeys(objs)))
      else None
    case Failure(_) => None
  }

  /** One table of the upgrade: kept when present; otherwise rebuilt from the raw
      response, or from the legacy rows, and stored dumped (or `None`). */
  function UpgradeTable(up: Fields, tableKey: string, rawKey: string, legacyKey: string, b: Builtins): (r: Call<Fields>)
    ensures r.Raised? <==>
              && !HasKey(up, tableKey) && AgentTable(GetOr(up, rawKey, Null), b).None?
              && Truthy(GetOr(up, legacyKey, Null)) && LegacyTable(GetOr(up, legacyKey, Null)).None?
    ensures r.Returned? ==> HasKey(r.value, tableKey)
  {
    if HasKey(up, tableKey) then Returned(up)
    else
      var t := AgentTable(GetOr(up, rawKey, Null), b);
      if t.None? && Truthy(GetOr(up, legacyKey, Null)) then
        match LegacyTable(GetOr(up, legacyKey, Null))
        case Some(lt) => Returned(Put(up, tableKey, TableToJson(lt)))
        case None => Raised("legacy rows are not a list of dicts")
      else Returned(Put(up, tableKey, OptTableJson(t)))
  }

  /** `_upgrade_cached_payload`, as a value: `Raised` where the source raises. */
  function Upgraded(data: Json, b: Builtins): (r: Call<Fields>)
    ensures !data.Obj? ==> r == Returned([])
  {
    if !data.Obj? then Returned([])
    else
      match UpgradeTable(data.fields, "severity_table", "raw_severity", "severity_rows", b)
      case Raised(m) => Raised(m)
      case Returned(up1) =>
        match UpgradeTable(up1, "large_losses_table", "raw_large_losses", "large_losses", b)
        case Raised(m) => Raised(m)
        case Returned(up2) => Returned(Remove(Remove(up2, "severity_rows"), "large_losses"))
  }

  /** `_upgrade_cached_payload`: copies the dict, fills the two table keys, and pops the
      legacy keys. */
  method UpgradeCachedPayload(data: Json, b: Builtins) returns (r: Call<Fields>)
    ensures r == Upgraded(data, b)
  {
    if !data.Obj? {
      return Returned([]);
    }
    var upgraded := data.fields;
    if !HasKey(upgraded, "severity_table") {
      var severity := BuildAgentTable(GetOr(upgraded, "raw_severity", Null), b);
      if severity.None? && Truthy(GetOr(upgraded, "severity_rows", Null)) {
        severity := LegacyTable(GetOr(upgraded, "severity_rows", Null));
        if severity.None? {
          return Raised("legacy rows are not a list of dicts");
        }
      }
      upgraded := Put(upgraded, "severity_table", OptTableJson(severity));
    }
    if !HasKey(upgraded, "large_losses_table") {
      var large := BuildAgentTable(GetOr(upgraded, "raw_large_losses", Null), b);
      if large.None? && Truthy(GetOr(upgraded, "large_losses", Null)) {
        large := LegacyTable(GetOr(upgraded, "large_losses", Null));
        if large.None? {
          return Raised("legacy rows are not a list of dicts");
        }
      }
      upgraded := Put(upgraded, "large_losses_table", OptTableJson(large));
    }
    upgraded := Remove(upgraded, "severity_rows");
    upgraded := Remove(upgraded, "large_losses");
    r := Returned(upgraded);
  }

  lemma UpgradeTableKeys(up: Fields, tableKey: string, rawKey: string, legacyKey: string, b: Builtins, k: string)
    requires UpgradeTable(up, tableKey, rawKey, legacyKey, b).Returned?
    ensures HasKey(UpgradeTable(up, tableKey, rawKey, legacyKey, b).value, tableKey)
    ensures HasKey(up, tableKey) ==> UpgradeTable(up, tableKey, rawKey, legacyKey, b).value == up
    ensures k != tableKey ==> Get(UpgradeTable(up, tableKey, rawKey, legacyKey, b).value, k) == Get(up, k)
  {
    if !HasKey(up, tableKey) && k != tableKey {
      var t := AgentTable(GetOr(up, rawKey, Null), b);
      if t.None? && Truthy(GetOr(up, legacyKey, Null)) {
        PutOther(up, tableKey, TableToJson(LegacyTable(GetOr(up, legacyKey, Null)).value), k);
      } else {
        PutOther(up, tableKey, OptTableJson(t), k);
      }
    }
  }

  /** An upgraded payload has both table keys and no legacy key; a table already
      there is kept, and every other key keeps its value. */
  lemma UpgradedSpec(data: Json, b: Builtins, k: string)
    requires data.Obj? && Upgraded(data, b).Returned?
    ensures var r := Upgraded(data, b).value;
            HasKey(r, "severity_table") && HasKey(r, "large_losses_table")
            && !HasKey(r, "severity_rows") && !HasKey(r, "large_losses")
            && (HasKey(data.fields, "severity_table") ==> Get(r, "severity_table") == Get(data.fields, "severity_table"))
            && (HasKey(data.fields, "large_losses_table") ==> Get(r, "large_losses_table") == Get(data.fields, "large_losses_table"))
            && (k !in {"severity_table", "large_losses_table", "severity_rows", "large_losses"} ==> Get(r, k) == Get(data.fields, k))
  {
    var fs := data.fields;
    var up1 := UpgradeTable(fs, "severity_table", "raw_severity", "severity_rows", b).value;
    var up2 := UpgradeTable(up1, "large_losses_table", "raw_large_losses", "large_losses", b).value;
    var r1 := Remove(up2, "severity_rows");
    if k !in {"severity_table", "large_losses_table", "severity_rows", "large_losses"} {
      UpgradeTableKeys(fs, "severity_table", "raw_severity", "severity_rows", b, k);
      UpgradeTableKeys(up1, "large_losses_table", "raw_large_losses", "large_losses", b, k);
    }
    UpgradeTableKeys(fs, "severity_table", "raw_severity", "severity_rows", b, "severity_table");
    UpgradeTableKeys(up1, "large_losses_table", "raw_large_losses", "large_losses", b, "severity_table");
    UpgradeTableKeys(up1, "large_losses_table", "raw_large_losses", "large_losses", b, "large_losses_table");
    UpgradeTableKeys(fs, "severity_table", "raw_severity", "severity_rows", b, "large_losses_table");
    if k !in {"severity_table", "large_losses_table", "severity_rows", "large_losses"} {
      RemoveOther(up2, "severity_rows", k);
      RemoveOther(r1, "large_losses", k);
    }
    RemoveOther(up2, "severity_rows", "severity_table");
    RemoveOther(r1, "large_losses", "severity_table");
    RemoveOther(up2, "severity_rows", "large_losses_table");
    RemoveOther(r1, "large_losses", "large_losses_table");
    RemoveOther(r1, "large_losses", "severity_rows");
  }

  /** A payload in the current layout is left exactly as it is. */
  lemma UpgradeCurrent(a: RiskAssessment, b: Builtins)
    ensures Upgraded(RiskAssessmentToJson(a), b) == Returned(RiskAssessmentToJson(a).fields)
  {
    var fs := RiskAssessmentToJson(a).fields;
    GetAt(fs, 0);
    GetAt(fs, 1);
    Absent(fs, "severity_rows");
    Absent(fs, "large_losses");
  }

  // ---------------------------------------------------------------- get_risk_assessment

  /** The cache parameters: `county` and `min_loss=str(min_loss)`. */
  function CacheParams(countyCode: string, minLoss: int): Kwargs {
    [("county", countyCode), ("min_loss", Text.IntToString(minLoss))]
  }

  function Key(caseId: string, countyCode: string, minLoss: int): string {
    CacheKey("C", caseId, CacheParams(countyCode, minLoss))
  }

  /** A cache hit: the stored `response_data` (or the whole entry), upgraded and
      validated; both failures escape as exceptions. */
  function FromCache(entry: Fields, b: Builtins): (r: Call<Option<RiskAssessment>>)
    ensures r.Returned? ==> r.value.Some?
    ensures Upgraded(GetOr(entry, "response_data", Obj(entry)), b).Raised? ==> r.Raised?
  {
    match Upgraded(GetOr(entry, "response_data", Obj(entry)), b)
    case Raised(m) => Raised(m)
    case Returned(up) =>
      match RiskAssessmentFromJson(Obj(up), b)
      case Ok(a) => Returned(Some(a))
      case Failure(e) => Raised(e)
  }

  /** The fetch path: `None` when the agent raises, its answer is not a dict, or
      neither table has rows; otherwise the assessment, stamped `now` and expiring
      72 hours later. */
  function Fresh(fetch: Call<Json>, countyCode: string, minLoss: int, now: int, b: Builtins): (r: Option<RiskAssessment>)
    ensures fetch.Raised? ==> r.None?
    ensures r.Some? <==>
      fetch.Returned? && fetch.value.Obj?
      && (TableHasRows(AgentTable(GetOr(fetch.value.fields, "severity", Obj([])), b))
          || TableHasRows(AgentTable(GetOr(fetch.value.fields, "large_losses", Obj([])), b)))
    ensures r.Some? ==>
      fetch.Returned? && fetch.value.Obj?
      && r.value.severityTable == AgentTable(GetOr(fetch.value.fields, "severity", Obj([])), b)
      && r.value.largeLossesTable == AgentTable(GetOr(fetch.value.fields, "large_losses", Obj([])), b)
      && r.value.rawSeverity == GetOr(fetch.value.fields, "severity", Obj([]))
      && r.value.rawLargeLosses == GetOr(fetch.value.fields, "large_losses", Obj([]))
    ensures r.Some? ==> r.value.cachedAt == now
                        && r.value.cacheExpiresAt == r.value.cachedAt + CacheTtlHours * SecondsPerHour
                        && r.value.countyCode == countyCode && r.value.minLossThreshold == minLoss as real
                        && (TableHasRows(r.value.severityTable) || TableHasRows(r.value.largeLossesTable))
  {
    match fetch
    case Raised(_) => None
    case Returned(raw) =>
      if !raw.Obj? then None
      else
        var severityData := GetOr(raw.fields, "severity", Obj([]));
        var largeData := GetOr(raw.fields, "large_losses", Obj([]));
        var severity := AgentTable(severityData, b);
        var large := AgentTable(largeData, b);
        if !TableHasRows(severity) && !TableHasRows(large) then None
        else Some(RiskAssessment(severity, large, countyCode, minLoss as real, now,
                                 now + CacheTtlHours * SecondsPerHour, severityData, largeData))
  }

  /** When neither table of the answer has rows nothing is returned (and so nothing
      is cached). */
  lemma NoRowsNoAssessment(raw: Fields, countyCode: string, minLoss: int, now: int, b: Builtins)
    requires !TableHasRows(AgentTable(GetOr(raw, "severity", Obj([])), b))
    requires !TableHasRows(AgentTable(GetOr(raw, "large_losses", Obj([])), b))
    ensures Fresh(Returned(Obj(raw)), countyCode, minLoss, now, b).None?
  {
  }

  /** What a later cache hit returns for a stored fresh assessment: the same
      assessment. */
  lemma CachedAssessmentRoundTrip(caseId: string, a: RiskAssessment, written: int, kw: Kwargs, b: Builtins)
    ensures FromCache(Payload("C", caseId, RiskAssessmentToJson(a), written, CacheTtlHours, kw), b)
         == Returned(Some(a))
  {
    PayloadFields("C", caseId, RiskAssessmentToJson(a), written, CacheTtlHours, kw);
    UpgradeCurrent(a, b);
    RiskAssessmentRoundTrip(a, b);
  }

  /** Within 72 hours of being stored, an assessment is served from the cache as
      itself, with no fetch. */
  lemma StoredAssessmentServed(files: map<string, CacheFile>, caseId: string, countyCode: string, minLoss: int,
                               a: RiskAssessment, now: int, b: Builtins)
    requires a.cachedAt <= now <= a.cachedAt + CacheTtlHours * SecondsPerHour
    ensures var key := Key(caseId, countyCode, minLoss);
            var stored := files[key := Stored(Obj(Payload("C", caseId, RiskAssessmentToJson(a), a.cachedAt,
                                                          CacheTtlHours, CacheParams(countyCode, minLoss))))];
            var found := Cached(Find(stored, now, key));
            found.Some? && |found.value| > 0 && FromCache(found.value, b) == Returned(Some(a))
  {
    SetThenGet(files, "C", caseId, RiskAssessmentToJson(a), a.cachedAt, CacheTtlHours, CacheParams(countyCode, minLoss), now);
    CachedAssessmentRoundTrip(caseId, a, a.cachedAt, CacheParams(countyCode, minLoss), b);
  }

  /** The cache directory after the fetch path: the entry is written when there is
      an assessment and the directory is writable. */
  function AfterFetch(files: map<string, CacheFile>, writable: bool, caseId: string, countyCode: string,
                      minLoss: int, now: int, made: Option<RiskAssessment>): map<string, CacheFile> {
    if made.Some? && writable
    then files[Key(caseId, countyCode, minLoss)
               := Stored(Obj(Payload("C", caseId, RiskAssessmentToJson(made.value), now, CacheTtlHours,
                                     CacheParams(countyCode, minLoss))))]
    else files
  }

  /** The fetch path of `get_risk_assessment` (its `try` block): builds both tables,
      and stores and returns the assessment when one of them has rows. */
  method FetchRiskAssessment(cache: Cache, caseId: string, countyCode: string, minLoss: int,
                             fetch: Call<Json>, b: Builtins)
    returns (assessment: Option<RiskAssessment>)
    modifies cache
    ensures assessment == Fresh(fetch, countyCode, minLoss, old(cache.now), b)
    ensures cache.files == AfterFetch(old(cache.files), old(cache.writable), caseId, countyCode, minLoss,
                                      old(cache.now), assessment)
    ensures cache.now == old(cache.now) && cache.writable == old(cache.writable)
  {
    assessment := None;
    if fetch.Returned? && fetch.value.Obj? {
      var raw := fetch.value.fields;
      var severityData := GetOr(raw, "severity", Obj([]));
      var largeData := GetOr(raw, "large_losses", Obj([]));
      var severity := BuildAgentTable(severityData, b);
      var large := BuildAgentTable(largeData, b);
      if TableHasRows(severity) || TableHasRows(large) {
        var now := cache.now;
        assessment := Some(RiskAssessment(severity, large, countyCode, minLoss as real, now,
                                          now + CacheTtlHours * SecondsPerHour, severityData, largeData));
        assert assessment == Fresh(fetch, countyCode, minLoss, now, b);
        cache.SetCachedResponse("C", caseId, RiskAssessmentToJson(assessment.value), CacheTtlHours,
                                CacheParams(countyCode, minLoss));
      }
    }
  }

  /** The cache-hit path of `get_risk_assessment`: upgrade, then validate. */
  method LoadCachedAssessment(entry: Fields, b: Builtins) returns (r: Call<Option<RiskAssessment>>)
    ensures r == FromCache(entry, b)
  {
    var upgraded := UpgradeCachedPayload(GetOr(entry, "response_data", Obj(entry)), b);
    match upgraded {
      case Raised(m) =>
        r := Raised(m);
      case Returned(up) =>
        match RiskAssessmentFromJson(Obj(up), b) {
          case Ok(a) => r := Returned(Some(a));
          case Failure(e) => r := Raised(e);
        }
    }
  }

  /** `get_risk_assessment`. `fetch` is what the data agent would answer; `fetched`
      says whether it was asked. A cache hit is a non-empty fresh entry. */
  method GetRiskAssessment(cache: Cache, caseId: string, countyCode: string, minLoss: int, forceRefresh: bool,
                           fetch: Call<Json>, b: Builtins)
    returns (r: Call<Option<RiskAssessment>>, fetched: bool)
    modifies cache
    ensures var found := Cached(Find(old(cache.files), old(cache.now), Key(caseId, countyCode, minLoss)));
            var hit := !forceRefresh && found.Some? && |found.value| > 0;
            && fetched == !hit
            && (hit ==> r == FromCache(found.value, b) && cache.files == old(cache.files))
            && (!hit ==> r == Returned(Fresh(fetch, countyCode, minLoss, old(cache.now), b))
                         && cache.files == AfterFetch(if forceRefresh then old(cache.files)
                                                      else AfterFind(old(cache.files), old(cache.now), Key(caseId, countyCode, minLoss)),
                                                      old(cache.writable), caseId, countyCode, minLoss, old(cache.now),
                                                      Fresh(fetch, countyCode, minLoss, old(cache.now), b)))
    ensures cache.now == old(cache.now) && cache.writable == old(cache.writable)
  {
    if !forceRefresh {
      var cached := cache.GetCachedResponse("C", caseId, CacheParams(countyCode, minLoss));
      if cached.Some? && |cached.value| > 0 {
        r := LoadCachedAssessment(cached.value, b);
        return r, false;
      }
    }
    var assessment := FetchRiskAssessment(cache, caseId, countyCode, minLoss, fetch, b);
    return Returned(assessment), true;
  }

  /** `refresh_risk_assessment`: drops the entry, then fetches. */
  method RefreshRiskAssessment(cache: Cache, caseId: string, countyCode: string, minLoss: int,
                               fetch: Call<Json>, b: Builtins)
    returns (r: Call<Option<RiskAssessment>>, fetched: bool)
    modifies cache
    ensures fetched
    ensures r == Returned(Fresh(fetch, countyCode, minLoss, old(cache.now), b))
    ensures cache.files == AfterFetch(old(cache.files) - {Key(caseId, countyCode, minLoss)}, old(cache.writable),
                                      caseId, countyCode, minLoss, old(cache.now),
                                      Fresh(fetch, countyCode, minLoss, old(cache.now), b))
  {
    var _ := cache.InvalidateCache("C", caseId, CacheParams(countyCode, minLoss));
    r, fetched := GetRiskAssessment(cache, caseId, countyCode, minLoss, true, fetch, b);
  }
}
