/** The client of the Fabric data agent: one question in, a structured table out,
    and an error response of the same shape, with the reason in its comments, on
    every failure except a blank question. Its request-id reader is the same
    function as the knowledge client's, `KnowledgeAgentClient.ExtractRequestId`. */
module FabricDataAgentClient {
  import opened Wrappers
  import opened Json
  import Schemas
  import Text
  import KnowledgeAgentClient

  /** `FabricAgentResponse`. */
  datatype FabricAgentResponse = FabricAgentResponse(
    status: string,
    columns: int,
    rows: int,
    comments: string := "",
    summary: string := "",
    response: seq<Fields> := [])

  /** The response every failure returns: status "error", no columns, rows or data. */
  function ErrorResponse(comments: string): (r: FabricAgentResponse)
    ensures r.status == "error" && r.columns == 0 && r.rows == 0
    ensures r.comments == comments && r.summary == "" && r.response == []
  {
    FabricAgentResponse("error", 0, 0, comments)
  }

  /** A `str` field with a default: an absent key gives the default, an explicit
      `None` is a validation error. */
  function DefaultStr(fs: Fields, k: string, default: string): (r: Result<string>)
    ensures !HasKey(fs, k) ==> r == Ok(default)
    ensures HasKey(fs, k) ==> (r.Ok? <==> GetOr(fs, k, Null).Str?)
    ensures HasKey(fs, k) && r.Ok? ==> GetOr(fs, k, Null) == Str(r.value)
  {
    match Get(fs, k)
    case None => Ok(default)
    case Some(v) => LaxStr(v)
  }

  /** `FabricAgentResponse(**parsed)`: status, columns and rows are required, the
      rest default; other keys are ignored. */
  function FabricResponseFromJson(fs: Fields, b: Builtins): (r: Result<FabricAgentResponse>)
    ensures r.Ok? <==>
      (ReqStr(fs, "status").Ok? && ReqInt(fs, "columns", b).Ok? && ReqInt(fs, "rows", b).Ok?
       && DefaultStr(fs, "comments", "").Ok? && DefaultStr(fs, "summary", "").Ok?
       && Schemas.DefaultObjList(fs, "response").Ok?)
    ensures r.Ok? ==> Get(fs, "status") == Some(Str(r.value.status))
    ensures r.Ok? && !HasKey(fs, "response") ==> r.value.response == []
  {
    var status :- ReqStr(fs, "status");
    var columns :- ReqInt(fs, "columns", b);
    var rows :- ReqInt(fs, "rows", b);
    var comments :- DefaultStr(fs, "comments", "");
    var summary :- DefaultStr(fs, "summary", "");
    var response :- Schemas.DefaultObjList(fs, "response");
    Ok(FabricAgentResponse(status, columns, rows, comments, summary, response))
  }

  /** `model_dump()`. */
  function FabricResponseToJson(x: FabricAgentResponse): Json {
    Obj([("status", Str(x.status)), ("columns", Int(x.columns)), ("rows", Int(x.rows)),
         ("comments", Str(x.comments)), ("summary", Str(x.summary)),
         ("response", ObjArr(x.response))])
  }

  lemma FabricResponseCounts(x: FabricAgentResponse, b: Builtins)
    ensures var fs := FabricResponseToJson(x).fields;
      ReqStr(fs, "status") == Ok(x.status) && ReqInt(fs, "columns", b) == Ok(x.columns)
      && ReqInt(fs, "rows", b) == Ok(x.rows)
  {
    var fs := FabricResponseToJson(x).fields;
    GetAt(fs, 1);
    GetAt(fs, 2);
  }

  lemma FabricResponseTexts(x: FabricAgentResponse)
    ensures var fs := FabricResponseToJson(x).fields;
      DefaultStr(fs, "comments", "") == Ok(x.comments) && DefaultStr(fs, "summary", "") == Ok(x.summary)
  {
    var fs := FabricResponseToJson(x).fields;
    GetAt(fs, 3);
    GetAt(fs, 4);
  }

  lemma FabricResponseRows(x: FabricAgentResponse)
    ensures Schemas.DefaultObjList(FabricResponseToJson(x).fields, "response") == Ok(x.response)
  {
    var fs := FabricResponseToJson(x).fields;
    GetAt(fs, 5);
    ObjListRoundTrip(x.response);
  }

  /** Validating a dumped response gives it back. */
  lemma FabricResponseRoundTrip(x: FabricAgentResponse, b: Builtins)
    ensures FabricResponseFromJson(FabricResponseToJson(x).fields, b) == Ok(x)
  {
    FabricResponseCounts(x, b);
    FabricResponseTexts(x);
    FabricResponseRows(x);
  }

  /** What `ask_structured` makes of a non-empty output text. The message of a
      pydantic validation error is stood for by the validator's failure text. */
  function ParseStructured(text: string, b: Builtins): (r: FabricAgentResponse)
    ensures b.loads(text).Failure? ==> r == ErrorResponse("Invalid JSON from agent: " + b.loads(text).error)
    ensures b.loads(text).Ok? && !b.loads(text).value.Obj? ==>
      r == ErrorResponse("Schema validation failed: '" + TypeName(b.loads(text).value) + "' object has no attribute 'get'")
    ensures b.loads(text).Ok? && b.loads(text).value.Obj? ==>
      match FabricResponseFromJson(b.loads(text).value.fields, b)
      case Ok(x) => r == x
      case Failure(e) => r == ErrorResponse("Schema validation failed: " + e)
  {
    match b.loads(text)
    case Failure(e) => ErrorResponse("Invalid JSON from agent: " + e)
    case Ok(Obj(fs)) =>
      (match FabricResponseFromJson(fs, b)
       case Ok(x) => x
       case Failure(e) => ErrorResponse("Schema validation failed: " + e))
    case Ok(v) => ErrorResponse("Schema validation failed: '" + TypeName(v) + "' object has no attribute 'get'")
  }

  /** `ask_structured`: `reply` is what the call to the agent gave, its output text or
      the exception it raised. A blank question is the `ValueError` the source
      raises; every other failure is an error response naming its cause. */
  function AskStructured(question: string, reply: Call<Option<string>>, b: Builtins): (r: Result<FabricAgentResponse>)
    ensures r.Failure? <==> KnowledgeAgentClient.Blank(question)
    ensures r.Ok? && reply.Raised? ==> r.value == ErrorResponse("Error: " + reply.message)
    ensures r.Ok? && reply.Returned? && (reply.value.None? || reply.value.value == "") ==>
      r.value == ErrorResponse("Empty response from Foundry agent")
    ensures r.Ok? && reply.Returned? && reply.value.Some? && reply.value.value != "" ==>
      r.value == ParseStructured(reply.value.value, b)
  {
    if KnowledgeAgentClient.Blank(question) then Failure("Question cannot be empty")
    else
      match reply
      case Raised(message) => Ok(ErrorResponse("Error: " + message))
      case Returned(None) => Ok(ErrorResponse("Empty response from Foundry agent"))
      case Returned(Some(text)) =>
        if text == "" then Ok(ErrorResponse("Empty response from Foundry agent"))
        else Ok(ParseStructured(text, b))
  }

  /** A response that does not say "error" is the agent's own JSON, validated. */
  lemma NonErrorIsAgentData(question: string, reply: Call<Option<string>>, b: Builtins)
    requires AskStructured(question, reply, b).Ok?
    requires AskStructured(question, reply, b).value.status != "error"
    ensures reply.Returned? && reply.value.Some?
    ensures b.loads(reply.value.value).Ok? && b.loads(reply.value.value).value.Obj?
    ensures FabricResponseFromJson(b.loads(reply.value.value).value.fields, b) == Ok(AskStructured(question, reply, b).value)
  {
  }

  /** The comments of an error response name one of the four causes. */
  predicate ErrorCause(comments: string) {
    Text.StartsWith(comments, "Error: ") || comments == "Empty response from Foundry agent"
    || Text.StartsWith(comments, "Invalid JSON from agent: ")
    || Text.StartsWith(comments, "Schema validation failed: ")
  }

  /** The agent's own JSON, validated, is what `r` is. */
  predicate FromAgent(reply: Call<Option<string>>, b: Builtins, r: FabricAgentResponse) {
    reply.Returned? && reply.value.Some? && b.loads(reply.value.value).Ok? && b.loads(reply.value.value).value.Obj?
    && FabricResponseFromJson(b.loads(reply.value.value).value.fields, b) == Ok(r)
  }

  /** An error response with no data whose comments name the cause. */
  predicate IsError(r: FabricAgentResponse) {
    r == ErrorResponse(r.comments) && ErrorCause(r.comments)
  }

  lemma CauseIsError(prefix: string, detail: string)
    requires prefix in {"Error: ", "Invalid JSON from agent: ", "Schema validation failed: "}
    ensures IsError(ErrorResponse(prefix + detail))
  {
    PrefixStarts(prefix, detail);
  }

  lemma EmptyIsError(c: string)
    requires c == "Empty response from Foundry agent"
    ensures IsError(ErrorResponse(c))
  {
  }

  lemma ParsedIsAgentDataOrError(text: string, b: Builtins)
    ensures FromAgent(Returned(Some(text)), b, ParseStructured(text, b)) || IsError(ParseStructured(text, b))
  {
    match b.loads(text)
    case Failure(e) =>
      CauseIsError("Invalid JSON from agent: ", e);
    case Ok(Obj(fs)) =>
      match FabricResponseFromJson(fs, b) {
        case Ok(_) =>
        case Failure(e) => CauseIsError("Schema validation failed: ", e);
      }
    case Ok(v) =>
      CauseIsError("Schema validation failed: ", "'" + TypeName(v) + "' object has no attribute 'get'");
  }

  lemma RaisedIsError(question: string, message: string, b: Builtins)
    requires !KnowledgeAgentClient.Blank(question)
    ensures IsError(AskStructured(question, Raised(message), b).value)
  {
    CauseIsError("Error: ", message);
  }

  lemma NoTextIsError(question: string, reply: Call<Option<string>>, b: Builtins)
    requires !KnowledgeAgentClient.Blank(question)
    requires reply.Returned? && (reply.value.None? || reply.value.value == "")
    ensures IsError(AskStructured(question, reply, b).value)
  {
    EmptyIsError(AskStructured(question, reply, b).value.comments);
  }

  lemma TextIsAgentDataOrError(question: string, text: string, b: Builtins)
    requires !KnowledgeAgentClient.Blank(question) && text != ""
    ensures FromAgent(Returned(Some(text)), b, AskStructured(question, Returned(Some(text)), b).value)
      || IsError(AskStructured(question, Returned(Some(text)), b).value)
  {
    ParsedIsAgentDataOrError(text, b);
  }

  /** Whatever the agent does, an accepted question gets either the agent's own
      validated JSON or an error response with no data whose comments name the
      cause. */
  lemma AgentDataOrError(question: string, reply: Call<Option<string>>, b: Builtins)
    requires !KnowledgeAgentClient.Blank(question)
    ensures FromAgent(reply, b, AskStructured(question, reply, b).value) || IsError(AskStructured(question, reply, b).value)
  {
    if reply.Raised? {
      RaisedIsError(question, reply.message, b);
    } else if reply.value.None? || reply.value.value == "" {
      NoTextIsError(question, reply, b);
    } else {
      TextIsAgentDataOrError(question, reply.value.value, b);
    }
  }

  lemma PrefixStarts(p: string, q: string)
    ensures Text.StartsWith(p + q, p)
  {
    assert (p + q)[..|p|] == p;
  }

  /** An answer that loads as a dumped response comes back intact. */
  lemma AskStructuredRoundTrip(question: string, x: FabricAgentResponse, text: string, b: Builtins)
    requires !KnowledgeAgentClient.Blank(question) && text != ""
    requires b.loads(text) == Ok(FabricResponseToJson(x))
    ensures AskStructured(question, Returned(Some(text)), b) == Ok(x)
  {
    FabricResponseRoundTrip(x, b);
  }
}
