/** Python's dynamic values as the backend sees them after `json.loads` or inside a
    response dict, with the dictionary operations, truthiness and the numeric
    conversions that the services apply to them. */
module Json {
  import opened Wrappers
  import Text

  /** A JSON-shaped Python value. A dict is an association list in insertion order;
      lookups take the first entry with the key. */
  datatype Json =
    | Null
    | Bool(b: bool)
    | Int(i: int)
    | Real(r: real)
    | Str(s: string)
    | Arr(items: seq<Json>)
    | Obj(fields: seq<(string, Json)>)

  type Fields = seq<(string, Json)>

  /** The runtime conversions the model does not define: `int(text)`, `float(text)`,
      `str(x)` of a float, and `json.loads`. They are parameters of every operation
      that needs them, so every property proved holds whatever they do. */
  datatype Builtins = Builtins(
    parseInt: string -> Option<int>,
    parseFloat: string -> Option<real>,
    floatRepr: real -> string,
    loads: string -> Result<Json>)

  /** `k in d`. */
  predicate HasKey(fs: Fields, k: string) {
    |fs| > 0 && (fs[0].0 == k || HasKey(fs[1..], k))
  }

  /** `list(d.keys())`, in insertion order. */
  function Keys(fs: Fields): (ks: seq<string>)
    ensures |ks| == |fs|
  {
    if |fs| == 0 then [] else [fs[0].0] + Keys(fs[1..])
  }

  /** `d.get(k)`: the value of the first entry with key `k`. */
  function Get(fs: Fields, k: string): (r: Option<Json>)
    ensures r.Some? <==> HasKey(fs, k)
  {
    if |fs| == 0 then None
    else if fs[0].0 == k then Some(fs[0].1)
    else Get(fs[1..], k)
  }

  /** `d.get(k, default)`. */
  function GetOr(fs: Fields, k: string, default: Json): Json {
    Get(fs, k).GetOr(default)
  }

  /** `d.get(k, {})` when the caller goes on to call `.get` on the result: an absent
      key reads as an empty dict; `None` is the `AttributeError` of a present value
      that is not a dict (an explicit `None` included). */
  function GetDict(fs: Fields, k: string): (r: Option<Fields>)
    ensures !HasKey(fs, k) ==> r == Some([])
    ensures HasKey(fs, k) ==> (r.Some? <==> GetOr(fs, k, Null).Obj?)
    ensures HasKey(fs, k) && r.Some? ==> GetOr(fs, k, Null) == Obj(r.value)
  {
    match Get(fs, k)
    case None => Some([])
    case Some(Obj(sub)) => Some(sub)
    case Some(_) => None
  }

  /** `d[k] = v`: replaces the value in place when the key is present, otherwise
      appends a new entry at the end (dicts keep insertion order). */
  function Put(fs: Fields, k: string, v: Json): (r: Fields)
    ensures Get(r, k) == Some(v)
    ensures HasKey(fs, k) ==> Keys(r) == Keys(fs)
    ensures !HasKey(fs, k) ==> Keys(r) == Keys(fs) + [k]
  {
    if |fs| == 0 then [(k, v)]
    else if fs[0].0 == k then
      assert ([(k, v)] + fs[1..])[1..] == fs[1..];
      [(k, v)] + fs[1..]
    else
      var rest := Put(fs[1..], k, v);
      assert ([fs[0]] + rest)[1..] == rest;
      [fs[0]] + rest
  }

  lemma {:induction false} PutOther(fs: Fields, k: string, v: Json, k': string)
    requires k' != k
    ensures Get(Put(fs, k, v), k') == Get(fs, k')
  {
    if |fs| > 0 && fs[0].0 != k {
      PutOther(fs[1..], k, v, k');
      assert ([fs[0]] + Put(fs[1..], k, v))[1..] == Put(fs[1..], k, v);
    } else if |fs| > 0 {
      assert ([(k, v)] + fs[1..])[1..] == fs[1..];
    }
  }

  /** Storing the value a key already has leaves the dict as it is. */
  lemma {:induction false} PutSame(fs: Fields, k: string, v: Json)
    requires Get(fs, k) == Some(v)
    ensures Put(fs, k, v) == fs
  {
    if fs[0].0 != k {
      PutSame(fs[1..], k, v);
    }
    assert fs == [fs[0]] + fs[1..];
  }

  /** `d.pop(k, None)`: no entry with key `k` is left. */
  function Remove(fs: Fields, k: string): (r: Fields)
    ensures !HasKey(r, k)
    ensures !HasKey(fs, k) ==> r == fs
    ensures |r| <= |fs|
  {
    if |fs| == 0 then []
    else
      var rest := Remove(fs[1..], k);
      if fs[0].0 == k then rest
      else
        assert ([fs[0]] + rest)[1..] == rest;
        assert fs == [fs[0]] + fs[1..];
        [fs[0]] + rest
  }

  lemma {:induction false} RemoveOther(fs: Fields, k: string, k': string)
    requires k' != k
    ensures Get(Remove(fs, k), k') == Get(fs, k')
  {
    if |fs| > 0 {
      RemoveOther(fs[1..], k, k');
      if fs[0].0 != k {
        assert ([fs[0]] + Remove(fs[1..], k))[1..] == Remove(fs[1..], k);
      }
    }
  }

  /** The entry at position `i` is the one `Get` finds when no earlier entry has
      its key. */
  lemma {:induction false} GetAt(fs: Fields, i: nat)
    requires i < |fs|
    requires forall j :: 0 <= j < i ==> fs[j].0 != fs[i].0
    ensures Get(fs, fs[i].0) == Some(fs[i].1)
  {
    if i > 0 {
      GetAt(fs[1..], i - 1);
    }
  }

  /** In a dict display with distinct keys, every key gives its own value. */
  lemma GetDistinct(fs: Fields)
    requires forall i, j :: 0 <= i < j < |fs| ==> fs[i].0 != fs[j].0
    ensures forall i :: 0 <= i < |fs| ==> Get(fs, fs[i].0) == Some(fs[i].1)
  {
    forall i | 0 <= i < |fs| ensures Get(fs, fs[i].0) == Some(fs[i].1) {
      GetAt(fs, i);
    }
  }

  /** The keys are listed position by position. */
  lemma {:induction false} KeysAt(fs: Fields)
    ensures forall i :: 0 <= i < |fs| ==> Keys(fs)[i] == fs[i].0
  {
    if |fs| > 0 {
      KeysAt(fs[1..]);
    }
  }

  lemma {:induction false} Absent(fs: Fields, k: string)
    requires forall j :: 0 <= j < |fs| ==> fs[j].0 != k
    ensures !HasKey(fs, k)
  {
    if |fs| > 0 {
      Absent(fs[1..], k);
    }
  }

  /** Python truthiness: `None`, `False`, zero, and empty strings, lists and dicts
      are falsy. */
  predicate Truthy(v: Json) {
    match v
    case Null => false
    case Bool(b) => b
    case Int(i) => i != 0
    case Real(r) => r != 0.0
    case Str(s) => |s| > 0
    case Arr(items) => |items| > 0
    case Obj(fields) => |fields| > 0
  }

  /** Python's `int(x)` truncates a float toward zero. */
  function Truncate(r: real): (i: int)
    ensures (i as real) <= r < (i as real) + 1.0 || (i as real) - 1.0 < r <= (i as real)
    ensures r >= 0.0 ==> 0 <= i && (i as real) <= r
    ensures r <= 0.0 ==> i <= 0 && r <= (i as real)
  {
    if r >= 0.0 then r.Floor else -((-r).Floor)
  }

  /** What a `for` loop over the value visits: the items of a list, the keys of a
      dict, the one-character strings of a string; `None` is the `TypeError` any
      other value raises. */
  function Iterate(v: Json): (r: Option<seq<Json>>)
    ensures v.Arr? ==> r == Some(v.items)
    ensures r.Some? ==> |r.value| == match v case Arr(items) => |items| case Obj(fs) => |fs| case Str(s) => |s| case _ => 0
    ensures r.None? <==> !(v.Arr? || v.Obj? || v.Str?)
  {
    match v
    case Arr(items) => Some(items)
    case Obj(fs) => Some(seq(|fs|, i requires 0 <= i < |fs| => Str(fs[i].0)))
    case Str(s) => Some(seq(|s|, i requires 0 <= i < |s| => Str([s[i]])))
    case _ => None
  }

  /** Python's name for the type of a value, as its error messages print it. */
  function TypeName(v: Json): string {
    match v
    case Null => "NoneType"
    case Bool(_) => "bool"
    case Int(_) => "int"
    case Real(_) => "float"
    case Str(_) => "str"
    case Arr(_) => "list"
    case Obj(_) => "dict"
  }

  /** The value of a Python number (`bool` is a subclass of `int`); `None` for the
      values that `isinstance(x, (int, float))` rejects and that a comparison with a
      float raises on. */
  function Numeric(v: Json): (r: Option<real>)
    ensures r.Some? <==> (v.Int? || v.Real? || v.Bool?)
  {
    match v
    case Int(i) => Some(i as real)
    case Real(r) => Some(r)
    case Bool(x) => Some(if x then 1.0 else 0.0)
    case _ => None
  }

  /** Python's builtin `int(x)`, with `None` standing for the `TypeError` or
      `ValueError` it raises. */
  function PyInt(v: Json, b: Builtins): Option<int> {
    match v
    case Bool(x) => Some(if x then 1 else 0)
    case Int(i) => Some(i)
    case Real(r) => Some(Truncate(r))
    case Str(s) => b.parseInt(s)
    case _ => None
  }

  /** Python's builtin `float(x)`, with `None` standing for the exception it raises. */
  function PyFloat(v: Json, b: Builtins): Option<real> {
    match v
    case Bool(x) => Some(if x then 1.0 else 0.0)
    case Int(i) => Some(i as real)
    case Real(r) => Some(r)
    case Str(s) => b.parseFloat(s)
    case _ => None
  }

  /** `str(x)` for the scalar kinds a column key may have. */
  function PyStr(v: Json, b: Builtins): Option<string> {
    match v
    case Str(s) => Some(s)
    case Int(i) => Some(Text.IntToString(i))
    case Bool(x) => Some(if x then "True" else "False")
    case Real(r) => Some(b.floatRepr(r))
    case _ => None
  }

  /** An `int` field of a pydantic model in lax mode: integers, booleans, floats
      without a fractional part and numeric strings are accepted. */
  function LaxInt(v: Json, b: Builtins): Result<int> {
    match v
    case Int(i) => Ok(i)
    case Bool(x) => Ok(if x then 1 else 0)
    case Real(r) => if r == r.Floor as real then Ok(r.Floor) else Failure("int_from_float")
    case Str(s) =>
      (match b.parseInt(s) case Some(i) => Ok(i) case None => Failure("int_parsing"))
    case _ => Failure("int_type")
  }

  /** A `float` field of a pydantic model in lax mode. */
  function LaxFloat(v: Json, b: Builtins): Result<real> {
    match v
    case Int(i) => Ok(i as real)
    case Real(r) => Ok(r)
    case Bool(x) => Ok(if x then 1.0 else 0.0)
    case Str(s) =>
      (match b.parseFloat(s) case Some(r) => Ok(r) case None => Failure("float_parsing"))
    case _ => Failure("float_type")
  }

  /** A `str` field of a pydantic model: only strings are accepted. */
  function LaxStr(v: Json): Result<string> {
    match v
    case Str(s) => Ok(s)
    case _ => Failure("string_type")
  }

  /** A required `str` field: absence is a validation error. */
  function ReqStr(fs: Fields, k: string): Result<string> {
    match Get(fs, k)
    case None => Failure("missing " + k)
    case Some(v) => LaxStr(v)
  }

  function ReqInt(fs: Fields, k: string, b: Builtins): Result<int> {
    match Get(fs, k)
    case None => Failure("missing " + k)
    case Some(v) => LaxInt(v, b)
  }

  function ReqFloat(fs: Fields, k: string, b: Builtins): Result<real> {
    match Get(fs, k)
    case None => Failure("missing " + k)
    case Some(v) => LaxFloat(v, b)
  }

  /** An `Optional[str]` value: `None` or a string. */
  function OptStrValue(v: Json): (r: Result<Option<string>>)
    ensures r.Ok? <==> v.Null? || v.Str?
    ensures r.Ok? && r.value.Some? ==> v == Str(r.value.value)
    ensures r == Ok(None) <==> v.Null?
  {
    match v
    case Null => Ok(None)
    case Str(s) => Ok(Some(s))
    case _ => Failure("string_type")
  }

  /** An `Optional[str]` field: absent or `None` gives `None`. */
  function OptStr(fs: Fields, k: string): Result<Option<string>> {
    match Get(fs, k)
    case None => Ok(None)
    case Some(Null) => Ok(None)
    case Some(v) => (match LaxStr(v) case Ok(x) => Ok(Some(x)) case Failure(e) => Failure(e))
  }

  function OptInt(fs: Fields, k: string, b: Builtins): Result<Option<int>> {
    match Get(fs, k)
    case None => Ok(None)
    case Some(Null) => Ok(None)
    case Some(v) => (match LaxInt(v, b) case Ok(x) => Ok(Some(x)) case Failure(e) => Failure(e))
  }

  function OptFloat(fs: Fields, k: string, b: Builtins): Result<Option<real>> {
    match Get(fs, k)
    case None => Ok(None)
    case Some(Null) => Ok(None)
    case Some(v) => (match LaxFloat(v, b) case Ok(x) => Ok(Some(x)) case Failure(e) => Failure(e))
  }

  function OptStrJson(o: Option<string>): Json {
    match o case Some(s) => Str(s) case None => Null
  }

  function OptIntJson(o: Option<int>): Json {
    match o case Some(i) => Int(i) case None => Null
  }

  function OptRealJson(o: Option<real>): Json {
    match o case Some(r) => Real(r) case None => Null
  }

  function StrArr(ss: seq<string>): (j: Json)
    ensures j.Arr? && |j.items| == |ss|
    ensures forall i :: 0 <= i < |ss| ==> j.items[i] == Str(ss[i])
  {
    Arr(seq(|ss|, i requires 0 <= i < |ss| => Str(ss[i])))
  }

  function ObjArr(rows: seq<Fields>): (j: Json)
    ensures j.Arr? && |j.items| == |rows|
    ensures forall i :: 0 <= i < |rows| ==> j.items[i] == Obj(rows[i])
  {
    Arr(seq(|rows|, i requires 0 <= i < |rows| => Obj(rows[i])))
  }

  /** A `List[str]` field: a list whose every item is a string. */
  function StrList(v: Json): (r: Result<seq<string>>)
    ensures r.Ok? <==> v.Arr? && forall i :: 0 <= i < |v.items| ==> v.items[i].Str?
    ensures r.Ok? ==> StrArr(r.value) == v
  {
    if v.Arr? && forall i :: 0 <= i < |v.items| ==> v.items[i].Str? then
      Ok(seq(|v.items|, i requires 0 <= i < |v.items| => v.items[i].s))
    else Failure("list_type")
  }

  /** A `List[Dict[str, Any]]` field: a list whose every item is a dict. */
  function ObjList(v: Json): (r: Result<seq<Fields>>)
    ensures r.Ok? <==> v.Arr? && forall i :: 0 <= i < |v.items| ==> v.items[i].Obj?
    ensures r.Ok? ==> ObjArr(r.value) == v
  {
    if v.Arr? && forall i :: 0 <= i < |v.items| ==> v.items[i].Obj? then
      Ok(seq(|v.items|, i requires 0 <= i < |v.items| => v.items[i].fields))
    else Failure("list_type")
  }

  lemma StrListRoundTrip(ss: seq<string>)
    ensures StrList(StrArr(ss)) == Ok(ss)
  {
    var j := StrArr(ss);
    assert StrList(j).Ok?;
    assert StrList(j).value == ss;
  }

  lemma ObjListRoundTrip(rows: seq<Fields>)
    ensures ObjList(ObjArr(rows)) == Ok(rows)
  {
    var j := ObjArr(rows);
    assert ObjList(j).Ok?;
    assert ObjList(j).value == rows;
  }
}
