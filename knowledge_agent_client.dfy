/** The client of the knowledge agent: it asks one question, strips the code fence
    the agent may wrap its JSON in, coerces the citation scores to floats and
    validates the answer, falling back to an empty answer on every failure. */
module KnowledgeAgentClient {
  import opened Wrappers
  import opened Text
  import opened Json
  import Schemas

  // ---------------------------------------------------------------- request id

  /** The pattern `"requestId"\s*:\s*"([^"]+)"` tried at position `i`: the quoted key,
      a colon between optional whitespace, then a non-empty run of non-quote
      characters in quotes, which is the match. */
  function RequestIdAt(s: string, i: nat): (r: Option<string>)
    requires i <= |s|
    ensures r.Some? ==> i < |s| && s[i] == '"'
    ensures r.Some? ==> |r.value| > 0 && '"' !in r.value
  {
    var t := s[i..];
    if !("\"requestId\"" <= t) then None
    else
      var u := LStrip(t[11..]);
      if |u| == 0 || u[0] != ':' then None
      else
        var w := LStrip(u[1..]);
        if |w| == 0 || w[0] != '"' then None
        else
          var body := w[1..];
          var j := IndexOf(body, '"');
          if 0 < j < |body| then Some(body[..j]) else None
  }

  /** `re.search` from position `i`: the match at the leftmost position that matches. */
  function SearchRequestId(s: string, i: nat): (r: Option<string>)
    requires i <= |s|
    ensures r.Some? ==> |r.value| > 0 && '"' !in r.value
    decreases |s| - i
  {
    if i == |s| then None
    else if RequestIdAt(s, i).Some? then RequestIdAt(s, i)
    else SearchRequestId(s, i + 1)
  }

  /** `_extract_request_id`: the request id quoted in an error message, if any. */
  function ExtractRequestId(message: string): (r: Option<string>)
    ensures message == "" ==> r.None?
    ensures r.Some? ==> |r.value| > 0 && '"' !in r.value
    ensures message != "" ==> r == SearchRequestId(message, 0)
  {
    if message == "" then None else SearchRequestId(message, 0)
  }

  /** The search finds nothing exactly when no position from `i` on matches. */
  lemma SearchRequestIdNone(s: string, i: nat)
    requires i <= |s|
    ensures SearchRequestId(s, i).None? <==> forall k :: i <= k < |s| ==> RequestIdAt(s, k).None?
  {
    if SearchRequestId(s, i).None? {
      forall k | i <= k < |s| ensures RequestIdAt(s, k).None? {
        NoMatchAt(s, i, k);
      }
    } else {
      var k := SearchRequestIdWitness(s, i);
    }
  }

  /** A search that finds nothing passed every position. */
  lemma {:induction false} NoMatchAt(s: string, i: nat, k: nat)
    requires i <= k < |s| && SearchRequestId(s, i).None?
    ensures RequestIdAt(s, k).None?
    decreases k - i
  {
    if i < k {
      NoMatchAt(s, i + 1, k);
    }
  }

  /** A search that finds an id found it at some position. */
  lemma {:induction false} SearchRequestIdWitness(s: string, i: nat) returns (k: nat)
    requires i <= |s| && SearchRequestId(s, i).Some?
    ensures i <= k < |s| && RequestIdAt(s, k).Some?
    decreases |s| - i
  {
    if RequestIdAt(s, i).Some? {
      k := i;
    } else {
      k := SearchRequestIdWitness(s, i + 1);
    }
  }

  /** Positions without a quote cannot start a match and are skipped. */
  lemma {:induction false} SearchRequestIdSkips(s: string, i: nat, j: nat)
    requires i <= j <= |s|
    requires '"' !in s[i..j]
    ensures SearchRequestId(s, i) == SearchRequestId(s, j)
    decreases j - i
  {
    if i < j {
      assert s[i] == s[i..j][0];
      assert s[i + 1..j] == s[i..j][1..];
      SearchRequestIdSkips(s, i + 1, j);
    }
  }

  lemma RequestIdAfterColon(rest: string, id: string, post: string)
    requires rest == ": \"" + id + "\"" + post
    ensures LStrip(rest) == rest
    ensures LStrip(rest[1..]) == "\"" + id + "\"" + post
  {
    assert rest[1..] == " " + ("\"" + id + "\"" + post);
    LStripSpaces(" ", "\"" + id + "\"" + post);
  }

  lemma RequestIdQuoted(w: string, id: string, post: string)
    requires w == "\"" + id + "\"" + post
    requires |id| > 0 && '"' !in id
    ensures w[1..] == id + ("\"" + post)
    ensures IndexOf(w[1..], '"') == |id|
  {
    assert w[1..] == id + ("\"" + post);
    IndexOfConcat(id, "\"" + post, '"');
  }

  lemma RequestIdAtKey(t: string, id: string, post: string)
    requires t == "\"requestId\"" + (": \"" + id + "\"" + post)
    requires |id| > 0 && '"' !in id
    ensures RequestIdAt(t, 0) == Some(id)
  {
    var rest := ": \"" + id + "\"" + post;
    assert t[0..] == t && t[11..] == rest;
    RequestIdAfterColon(rest, id, post);
    var w := "\"" + id + "\"" + post;
    RequestIdQuoted(w, id, post);
    assert w[1..][..|id|] == id;
  }

  /** A match is a match wherever it starts. */
  lemma RequestIdAtShift(pre: string, t: string)
    ensures RequestIdAt(pre + t, |pre|) == RequestIdAt(t, 0)
  {
    assert (pre + t)[|pre|..] == t[0..];
  }

  /** An error message carrying `"requestId": "<id>"` after a quote-free prefix
      yields that id. */
  lemma RequestIdFound(pre: string, id: string, post: string)
    requires '"' !in pre
    requires |id| > 0 && '"' !in id
    ensures ExtractRequestId(pre + "\"requestId\": \"" + id + "\"" + post) == Some(id)
  {
    var t := "\"requestId\"" + (": \"" + id + "\"" + post);
    var s := pre + t;
    assert pre + "\"requestId\": \"" + id + "\"" + post == s;
    assert s[0..|pre|] == pre;
    SearchRequestIdSkips(s, 0, |pre|);
    RequestIdAtKey(t, id, post);
    RequestIdAtShift(pre, t);
  }

  // ---------------------------------------------------------------- code fence

  /** The opening fence: when the text starts with three backticks, the run of
      backticks and the rest of the first line (the language tag) are dropped; a
      text of one line keeps what follows the backticks. */
  function DropOpening(s: string): (r: string)
    ensures |r| <= |s|
    ensures !StartsWith(s, "```") ==> r == s
  {
    if StartsWith(s, "```") then
      var l := LStripChar(s, '`');
      var parts := SplitOnce(l, '\n');
      if |parts| == 2 then
        assert |l| == |parts[0]| + 1 + |parts[1]|;
        parts[1]
      else l
    else s
  }

  /** The closing fence: a trailing run of backticks, when there are at least three. */
  function DropClosing(s: string): (r: string)
    ensures r <= s
    ensures !EndsWith(s, "```") ==> r == s
  {
    if EndsWith(s, "```") then RStripChar(s, '`') else s
  }

  /** `_strip_code_fence`: an empty text is returned as it is; otherwise the text is
      stripped, the fences are dropped and the result is stripped again. */
  function StripCodeFence(text: string): (r: string)
    ensures text == "" ==> r == ""
    ensures text != "" ==> IsStripped(r)
    ensures |r| <= |text|
  {
    if text == "" then text else Strip(DropClosing(DropOpening(Strip(text))))
  }

  /** A text without a fence at either end is only stripped. */
  lemma UnfencedOnlyStripped(text: string)
    requires text != ""
    requires !StartsWith(Strip(text), "```") && !EndsWith(Strip(text), "```")
    ensures StripCodeFence(text) == Strip(text)
  {
    StripStripped(Strip(text));
  }

  lemma FenceOpening(text: string, tag: string, rest: string)
    requires text == "```" + (tag + "\n" + rest)
    requires '\n' !in tag && (|tag| == 0 || tag[0] != '`')
    ensures DropOpening(text) == rest
  {
    assert StartsWith(text, "```");
    LStripCharPrefix("```", tag + "\n" + rest, '`');
    SplitOnceAt(tag, rest, '\n');
  }

  lemma FenceClosing(body: string)
    requires IsStripped(body)
    ensures DropClosing(body + "\n```") == body + "\n"
  {
    assert body + "\n```" == (body + "\n") + "```";
    assert EndsWith(body + "\n```", "```");
    RStripCharSuffix(body + "\n", "```", '`');
  }

  lemma StripNewline(body: string)
    requires IsStripped(body)
    ensures Strip(body + "\n") == body
  {
    StripAround("", body, "\n");
    assert "" + body + "\n" == body + "\n";
  }

  lemma FencedIsStripped(text: string, rest: string)
    requires text == "```" + rest && EndsWith(rest, "```")
    ensures Strip(text) == text
  {
    assert text[0] == '`';
    assert text[|text| - 1] == rest[|rest| - 1] == '`';
    StripStripped(text);
  }

  /** A body fenced as `` ```tag `` on its own line, the body, and a closing fence
      comes back as the body. */
  lemma StripCodeFenceRoundTrip(tag: string, body: string)
    requires '\n' !in tag
    requires |tag| == 0 || tag[0] != '`'
    requires IsStripped(body)
    ensures StripCodeFence("```" + tag + "\n" + body + "\n```") == body
  {
    var rest := body + "\n```";
    var text := "```" + (tag + "\n" + rest);
    assert "```" + tag + "\n" + body + "\n```" == text;
    assert EndsWith(tag + "\n" + rest, "```");
    FencedIsStripped(text, tag + "\n" + rest);
    FenceOpening(text, tag, rest);
    FenceClosing(body);
    StripNewline(body);
  }

  // ---------------------------------------------------------------- citations

  /** One citation after coercion: a copy of the dict whose "score" is `float(score)`,
      or 0.0 when that raises (a missing score included). */
  function FixCitation(c: Fields, b: Builtins): (r: Fields)
    ensures Get(r, "score").Some? && Get(r, "score").value.Real?
    ensures Keys(r) == if HasKey(c, "score") then Keys(c) else Keys(c) + ["score"]
  {
    Put(c, "score", Real(PyFloat(GetOr(c, "score", Null), b).GetOr(0.0)))
  }

  /** What one list element contributes: nothing when it is not a dict. */
  function FixedOne(c: Json, b: Builtins): (r: seq<Fields>)
    ensures |r| <= 1
    ensures |r| == 1 <==> c.Obj?
    ensures c.Obj? ==> r == [FixCitation(c.fields, b)]
  {
    if c.Obj? then [FixCitation(c.fields, b)] else []
  }

  /** The `fixed` list of `_coerce_citations`: the dicts of `items`, in order, each
      with its score coerced. */
  function Fixed(items: seq<Json>, b: Builtins): (r: seq<Fields>)
    ensures |r| <= |items|
  {
    if |items| == 0 then []
    else Fixed(items[..|items| - 1], b) + FixedOne(items[|items| - 1], b)
  }

  lemma FixedSnoc(items: seq<Json>, i: nat, b: Builtins)
    requires i < |items|
    ensures Fixed(items[..i + 1], b) == Fixed(items[..i], b) + FixedOne(items[i], b)
  {
    assert items[..i + 1][..i] == items[..i];
  }

  /** Every citation that is kept carries a float score. */
  lemma {:induction false} FixedScores(items: seq<Json>, b: Builtins, k: nat)
    requires k < |Fixed(items, b)|
    ensures Get(Fixed(items, b)[k], "score").Some? && Get(Fixed(items, b)[k], "score").value.Real?
  {
    var front := Fixed(items[..|items| - 1], b);
    if k < |front| {
      FixedScores(items[..|items| - 1], b, k);
    }
  }

  /** Elements that are not dicts contribute nothing. */
  lemma {:induction false} FixedNoDicts(items: seq<Json>, b: Builtins)
    requires forall i :: 0 <= i < |items| ==> !items[i].Obj?
    ensures Fixed(items, b) == []
  {
    if |items| > 0 {
      FixedNoDicts(items[..|items| - 1], b);
    }
  }

  /** Citations whose scores already are floats. */
  predicate Scored(cits: seq<Fields>) {
    forall i :: 0 <= i < |cits| ==> Get(cits[i], "score").Some? && Get(cits[i], "score").value.Real?
  }

  lemma FixScored(c: Fields, b: Builtins)
    requires Get(c, "score").Some? && Get(c, "score").value.Real?
    ensures FixCitation(c, b) == c
  {
    PutSame(c, "score", Get(c, "score").value);
  }

  /** A list of dicts whose scores already are floats is left as it is. */
  lemma {:induction false} FixedScoredIdentity(cits: seq<Fields>, b: Builtins)
    requires Scored(cits)
    ensures Fixed(ObjArr(cits).items, b) == cits
  {
    if |cits| > 0 {
      var n := |cits| - 1;
      var items := ObjArr(cits).items;
      assert items[..n] == ObjArr(cits[..n]).items;
      assert Scored(cits[..n]);
      FixedScoredIdentity(cits[..n], b);
      FixScored(cits[n], b);
      assert cits == cits[..n] + [cits[n]];
    }
  }

  /** `_coerce_citations` on a dict: a "citations" list is replaced by the fixed list;
      any other value, or none, leaves the dict as it is. */
  function Coerced(parsed: Fields, b: Builtins): (r: Fields)
    ensures Keys(r) == Keys(parsed)
    ensures (Get(parsed, "citations").Some? && Get(parsed, "citations").value.Arr?) ==>
      Get(r, "citations") == Some(ObjArr(Fixed(Get(parsed, "citations").value.items, b)))
    ensures !(Get(parsed, "citations").Some? && Get(parsed, "citations").value.Arr?) ==> r == parsed
  {
    match Get(parsed, "citations")
    case Some(Arr(items)) => Put(parsed, "citations", ObjArr(Fixed(items, b)))
    case _ => parsed
  }

  /** Coercion touches no other key. */
  lemma CoercedOther(parsed: Fields, b: Builtins, k: string)
    requires k != "citations"
    ensures Get(Coerced(parsed, b), k) == Get(parsed, k)
  {
    match Get(parsed, "citations")
    case Some(Arr(items)) => PutOther(parsed, "citations", ObjArr(Fixed(items, b)), k);
    case _ =>
  }

  /** The loop of `_coerce_citations`. */
  method CoerceCitations(parsed: Fields, b: Builtins) returns (r: Fields)
    ensures r == Coerced(parsed, b)
  {
    r := parsed;
    var citations := Get(parsed, "citations");
    if citations.Some? && citations.value.Arr? {
      var items := citations.value.items;
      var fixed: seq<Fields> := [];
      var i := 0;
      while i < |items|
        invariant 0 <= i <= |items|
        invariant fixed == Fixed(items[..i], b)
      {
        var c := items[i];
        ghost var before := fixed;
        if c.Obj? {
          var item := c.fields;
          var score := PyFloat(GetOr(item, "score", Null), b);
          item := Put(item, "score", Real(score.GetOr(0.0)));
          fixed := fixed + [item];
        }
        assert fixed == before + FixedOne(c, b);
        FixedSnoc(items, i, b);
        i := i + 1;
      }
      assert items[..|items|] == items;
      r := Put(parsed, "citations", ObjArr(fixed));
    }
  }

  // ---------------------------------------------------------------- responses

  /** `KnowledgeAgentResponse`. */
  datatype KnowledgeAgentResponse = KnowledgeAgentResponse(
    question: string,
    answer: string,
    citations: seq<Fields> := [],
    generatedAt: Option<string> := None,
    relevanceScore: Option<real> := None)

  /** The response `ask` falls back to: the question asked and nothing else. */
  function Empty(question: string): KnowledgeAgentResponse {
    KnowledgeAgentResponse(question, "")
  }

  /** `KnowledgeAgentResponse(**parsed)`: question and answer are required strings,
      citations a list of dicts (empty when absent), and the optional fields may be
      absent or `None`; other keys are ignored. */
  function KnowledgeResponseFromJson(fs: Fields, b: Builtins): (r: Result<KnowledgeAgentResponse>)
    ensures r.Ok? <==>
      (ReqStr(fs, "question").Ok? && ReqStr(fs, "answer").Ok?
       && Schemas.DefaultObjList(fs, "citations").Ok? && OptStr(fs, "generatedAt").Ok?
       && OptFloat(fs, "relevanceScore", b).Ok?)
    ensures r.Ok? ==>
      (Get(fs, "question") == Some(Str(r.value.question)) && Get(fs, "answer") == Some(Str(r.value.answer)))
  {
    var question :- ReqStr(fs, "question");
    var answer :- ReqStr(fs, "answer");
    var citations :- Schemas.DefaultObjList(fs, "citations");
    var generatedAt :- OptStr(fs, "generatedAt");
    var relevanceScore :- OptFloat(fs, "relevanceScore", b);
    Ok(KnowledgeAgentResponse(question, answer, citations, generatedAt, relevanceScore))
  }

  /** `model_dump()`. */
  function KnowledgeResponseToJson(k: KnowledgeAgentResponse): Json {
    Obj([("question", Str(k.question)), ("answer", Str(k.answer)),
         ("citations", ObjArr(k.citations)), ("generatedAt", OptStrJson(k.generatedAt)),
         ("relevanceScore", OptRealJson(k.relevanceScore))])
  }

  lemma KnowledgeResponseStrings(k: KnowledgeAgentResponse)
    ensures var fs := KnowledgeResponseToJson(k).fields;
      ReqStr(fs, "question") == Ok(k.question) && ReqStr(fs, "answer") == Ok(k.answer)
  {
    var fs := KnowledgeResponseToJson(k).fields;
    GetAt(fs, 1);
  }

  lemma KnowledgeResponseCitations(k: KnowledgeAgentResponse)
    ensures Schemas.DefaultObjList(KnowledgeResponseToJson(k).fields, "citations") == Ok(k.citations)
  {
    var fs := KnowledgeResponseToJson(k).fields;
    GetAt(fs, 2);
    ObjListRoundTrip(k.citations);
  }

  lemma KnowledgeResponseOptionals(k: KnowledgeAgentResponse, b: Builtins)
    ensures var fs := KnowledgeResponseToJson(k).fields;
      OptStr(fs, "generatedAt") == Ok(k.generatedAt) && OptFloat(fs, "relevanceScore", b) == Ok(k.relevanceScore)
  {
    var fs := KnowledgeResponseToJson(k).fields;
    GetAt(fs, 3);
    GetAt(fs, 4);
  }

  /** Validating a dumped response gives it back. */
  lemma KnowledgeResponseRoundTrip(k: KnowledgeAgentResponse, b: Builtins)
    ensures KnowledgeResponseFromJson(KnowledgeResponseToJson(k).fields, b) == Ok(k)
  {
    KnowledgeResponseStrings(k);
    KnowledgeResponseCitations(k);
    KnowledgeResponseOptionals(k, b);
  }

  /** A dumped response whose citation scores are floats is left as it is by the
      coercion. */
  lemma CoercedDumped(k: KnowledgeAgentResponse, b: Builtins)
    requires Scored(k.citations)
    ensures Coerced(KnowledgeResponseToJson(k).fields, b) == KnowledgeResponseToJson(k).fields
  {
    var fs := KnowledgeResponseToJson(k).fields;
    GetAt(fs, 2);
    FixedScoredIdentity(k.citations, b);
    PutSame(fs, "citations", ObjArr(k.citations));
  }

  // ---------------------------------------------------------------- ask

  /** A blank question, which `ask` rejects: empty or whitespace only. */
  predicate Blank(question: string) {
    Strip(question) == ""
  }

  /** What `ask` makes of the agent's output text: `None` when it does not parse as
      JSON, is not a dict, or does not validate. */
  function ParseAnswer(text: string, b: Builtins): (r: Option<KnowledgeAgentResponse>)
    ensures r.Some? ==> b.loads(StripCodeFence(text)).Ok? && b.loads(StripCodeFence(text)).value.Obj?
    ensures r.Some? ==>
      KnowledgeResponseFromJson(Coerced(b.loads(StripCodeFence(text)).value.fields, b), b) == Ok(r.value)
  {
    match b.loads(StripCodeFence(text))
    case Ok(Obj(fs)) => KnowledgeResponseFromJson(Coerced(fs, b), b).ToOption()
    case _ => None
  }

  /** `ask`: `reply` is what the call to the agent gave, its output text or the
      exception it raised. A blank question is the `ValueError` the source raises;
      every other failure gives the empty response for the question. */
  function Ask(question: string, reply: Call<Option<string>>, b: Builtins): (r: Result<KnowledgeAgentResponse>)
    ensures r.Failure? <==> Blank(question)
    ensures r.Ok? && reply.Raised? ==> r.value == Empty(question)
    ensures r.Ok? && reply.Returned? && (reply.value.None? || reply.value.value == "") ==> r.value == Empty(question)
    ensures r.Ok? && reply.Returned? && reply.value.Some? && reply.value.value != "" ==>
      r.value == ParseAnswer(reply.value.value, b).GetOr(Empty(question))
  {
    if Blank(question) then Failure("Question cannot be empty")
    else
      match reply
      case Raised(_) => Ok(Empty(question))
      case Returned(None) => Ok(Empty(question))
      case Returned(Some(text)) =>
        if text == "" then Ok(Empty(question))
        else Ok(ParseAnswer(text, b).GetOr(Empty(question)))
  }

  /** An answer whose unfenced text loads as a dumped response with float citation
      scores parses back to that response. */
  lemma ParseAnswerDumped(text: string, k: KnowledgeAgentResponse, b: Builtins)
    requires b.loads(StripCodeFence(text)) == Ok(KnowledgeResponseToJson(k))
    requires Scored(k.citations)
    ensures ParseAnswer(text, b) == Some(k)
  {
    CoercedDumped(k, b);
    KnowledgeResponseRoundTrip(k, b);
  }

  /** An answer the agent sends as fenced JSON, with float citation scores, comes
      back intact, whatever the language tag of the fence. The question of the
      result is the one in the agent's JSON. */
  lemma AskRoundTrip(question: string, k: KnowledgeAgentResponse, tag: string, dumped: string, b: Builtins)
    requires !Blank(question)
    requires '\n' !in tag && (|tag| == 0 || tag[0] != '`')
    requires IsStripped(dumped)
    requires b.loads(dumped) == Ok(KnowledgeResponseToJson(k))
    requires Scored(k.citations)
    ensures Ask(question, Returned(Some("```" + tag + "\n" + dumped + "\n```")), b) == Ok(k)
  {
    var text := "```" + tag + "\n" + dumped + "\n```";
    StripCodeFenceRoundTrip(tag, dumped);
    ParseAnswerDumped(text, k, b);
    assert text != "" by { assert text[0] == '`'; }
  }

  /** A JSON answer that is not a dict gives the empty response. */
  lemma NonDictAnswerIsEmpty(question: string, text: string, b: Builtins)
    requires !Blank(question) && text != ""
    requires b.loads(StripCodeFence(text)).Ok? && !b.loads(StripCodeFence(text)).value.Obj?
    ensures Ask(question, Returned(Some(text)), b) == Ok(Empty(question))
  {
  }
}
