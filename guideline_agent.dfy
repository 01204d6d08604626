/** The underwriting guideline check: a state-appetite rule on the property address
    and a flag for a high risk score. */
module GuidelineAgent {
  import opened Wrappers
  import opened Json
  import opened Text

  /** The states the program writes business in. */
  const AllowedStates: set<string> := {"IL", "TX", "WA", "CA"}

  const HighRiskFlag: string := "High risk score, manual review"

  /** The flag for a state out of appetite, naming the state. */
  function StateFlag(state: string): (f: string)
    ensures StartsWith(f, "State ") && f != HighRiskFlag
  {
    assert ("State " + state + " out of appetite")[0] == 'S';
    "State " + state + " out of appetite"
  }

  /** The dict `check_guidelines` returns. */
  datatype Guidelines = Guidelines(pass: bool, flags: seq<string>)

  function GuidelinesToJson(g: Guidelines): Json {
    Obj([("pass", Bool(g.pass)), ("flags", StrArr(g.flags))])
  }

  /** `(case_doc.get("property") or {}).get("address", "")`: a missing or falsy property
      reads as `""`; `None` is the `AttributeError` of a truthy property that is not a
      dict. */
  function Address(caseDoc: Fields): (r: Option<Json>)
    ensures (!HasKey(caseDoc, "property") || !Truthy(GetOr(caseDoc, "property", Null))) ==> r == Some(Str(""))
    ensures r.None? <==> (HasKey(caseDoc, "property") && Truthy(GetOr(caseDoc, "property", Null)) && !GetOr(caseDoc, "property", Null).Obj?)
  {
    match Get(caseDoc, "property")
    case None => Some(Str(""))
    case Some(p) =>
      if !Truthy(p) then Some(Str(""))
      else if p.Obj? then Some(GetOr(p.fields, "address", Str("")))
      else None
  }

  /** `s[-2:]`: the last two characters, or all of a shorter text. */
  function LastTwo(s: string): (r: string)
    ensures |r| == if |s| < 2 then |s| else 2
    ensures r == s[|s| - |r|..]
  {
    if |s| <= 2 then s else s[|s| - 2..]
  }

  /** `addr.split(",")[-1]`: the text after the last comma. */
  function LastPart(s: string): string {
    var parts := Split(s, ',');
    parts[|parts| - 1]
  }

  /** `addr.split(",")[-1].strip()[-2:] if "," in addr else "XX"` on an address text:
      the last two characters of the stripped text after the last comma. */
  function TextState(s: string): string {
    if ',' in s then LastTwo(Strip(LastPart(s))) else "XX"
  }

  /** The state rule on any address value. `None` is the exception Python raises: `in`
      on a value that is not a container, or `split` on a list or dict that has a ","
      element; a list or dict without one reads as "XX". */
  function GuidelineState(addr: Json): (r: Option<string>)
    ensures addr.Str? ==> r == Some(TextState(addr.s))
    ensures !addr.Str? && r.Some? ==> r == Some("XX")
  {
    match addr
    case Str(s) => Some(TextState(s))
    case Arr(items) => if Str(",") in items then None else Some("XX")
    case Obj(fs) => if HasKey(fs, ",") then None else Some("XX")
    case _ => None
  }

  /** `risk.get("score", 1) > 0.9`; a missing score counts as 1, and `None` is the
      `TypeError` of comparing a value that is not a number. */
  function HighScore(risk: Fields): (r: Option<bool>)
    ensures r.Some? <==> Numeric(GetOr(risk, "score", Int(1))).Some?
    ensures r.Some? ==> (r.value <==> Numeric(GetOr(risk, "score", Int(1))).value > 0.9)
  {
    match Numeric(GetOr(risk, "score", Int(1)))
    case None => None
    case Some(x) => Some(x > 0.9)
  }

  /** The flags the rules raise, in the order the check appends them. */
  function Flags(state: string, high: bool): seq<string> {
    (if state !in AllowedStates then [StateFlag(state)] else [])
    + (if high then [HighRiskFlag] else [])
  }

  /** The state flag is raised iff the state is out of appetite; the score flag iff the
      score is high; there are at most two flags, and the state flag comes first. */
  lemma FlagRules(state: string, high: bool)
    ensures StateFlag(state) in Flags(state, high) <==> state !in AllowedStates
    ensures HighRiskFlag in Flags(state, high) <==> high
    ensures |Flags(state, high)| <= 2
    ensures state !in AllowedStates ==> Flags(state, high)[0] == StateFlag(state)
    ensures Flags(state, high) == [] <==> state in AllowedStates && !high
  {
    assert StateFlag(state) != HighRiskFlag;
  }

  /** The dict `check_guidelines` returns, or `None` for the exception it raises. */
  function GuidelineOutcome(caseDoc: Fields, risk: Fields): (r: Option<Guidelines>)
    ensures r.Some? <==> Address(caseDoc).Some? && GuidelineState(Address(caseDoc).value).Some? && HighScore(risk).Some?
    ensures r.Some? ==> (r.value.pass <==> r.value.flags == []) && |r.value.flags| <= 2
    ensures r.Some? ==> (HighRiskFlag in r.value.flags <==> HighScore(risk).value)
  {
    var addr :- Address(caseDoc);
    var state :- GuidelineState(addr);
    var high :- HighScore(risk);
    var flags := Flags(state, high);
    Some(Guidelines(flags == [], flags))
  }

  /** `check_guidelines`: reads the address and the score, appends the flags and
      passes iff no flag was raised. */
  method CheckGuidelines(caseDoc: Fields, risk: Fields) returns (r: Option<Guidelines>)
    ensures r.Some? <==> Address(caseDoc).Some? && GuidelineState(Address(caseDoc).value).Some? && HighScore(risk).Some?
    ensures r.Some? ==>
      var state, high := GuidelineState(Address(caseDoc).value).value, HighScore(risk).value;
      r.value.flags == Flags(state, high) && (r.value.pass <==> r.value.flags == [])
    ensures r == GuidelineOutcome(caseDoc, risk)
  {
    var addr := Address(caseDoc);
    if addr.None? {
      return None;
    }
    var state := GuidelineState(addr.value);
    if state.None? {
      return None;
    }
    var flags: seq<string> := [];
    if state.value !in AllowedStates {
      flags := flags + [StateFlag(state.value)];
    }
    var high := HighScore(risk);
    if high.None? {
      return None;
    }
    if high.value {
      flags := flags + [HighRiskFlag];
    }
    return Some(Guidelines(|flags| == 0, flags));
  }

  /** A risk dict without a score is flagged as high risk. */
  lemma MissingScoreFlagged(risk: Fields)
    requires !HasKey(risk, "score")
    ensures HighScore(risk) == Some(true)
  {
  }

  lemma CommaBetween(front: string, last: string)
    ensures ',' in front + [','] + last
  {
    assert (front + [','] + last)[|front|] == ',';
  }

  lemma StateOfLastPart(s: string)
    requires ',' in s
    ensures TextState(s) == LastTwo(Strip(LastPart(s)))
  {
  }

  lemma LastPartAfter(front: string, last: string)
    requires ',' !in last
    ensures LastPart(front + [','] + last) == last
  {
    SplitLast(front, last, ',');
  }

  /** For an address text with a comma the state is read from the part after the last
      comma, whatever precedes it. */
  lemma StateFromLastPart(front: string, last: string)
    requires ',' !in last
    ensures TextState(front + [','] + last) == LastTwo(Strip(last))
  {
    CommaBetween(front, last);
    StateOfLastPart(front + [','] + last);
    LastPartAfter(front, last);
  }

  lemma ZipDigits(last: string)
    requires last == " 78701"
    ensures ',' !in last
    ensures LastTwo(Strip(last)) == "01"
  {
    ZipNoComma(last);
    ZipStrip(last);
    LastTwoOfZip(last[1..]);
  }

  lemma ZipNoComma(last: string)
    requires last == " 78701"
    ensures ',' !in last
  {
  }

  lemma ZipStrip(last: string)
    requires last == " 78701"
    ensures Strip(last) == last[1..]
  {
    ZipParts(last);
    StripAround(last[..1], last[1..], "");
    assert last[..1] + last[1..] + "" == last;
  }

  lemma ZipParts(last: string)
    requires last == " 78701"
    ensures AllSpace(last[..1]) && IsStripped(last[1..])
  {
  }

  lemma LastTwoOfZip(zip: string)
    requires zip == "78701"
    ensures LastTwo(zip) == "01"
  {
  }

  lemma NotAllowed(state: string)
    requires state == "01"
    ensures state !in AllowedStates
  {
  }

  /** On the address form used elsewhere in the backend, with the ZIP code after the
      state, the rule reads the last two digits of the ZIP code, so such an address is
      always out of appetite. */
  lemma ZipCodeReadAsState(address: string)
    requires address == "123 Main St, Austin, TX, 78701"
    ensures TextState(address) == "01"
    ensures TextState(address) !in AllowedStates
  {
    var front, last := "123 Main St, Austin, TX", " 78701";
    assert address == front + [','] + last;
    ZipDigits(last);
    StateFromLastPart(front, last);
    NotAllowed(TextState(address));
  }
}
