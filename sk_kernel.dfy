/** The chat-model helpers: the chat history built from (role, content) pairs, the
    text picked from the model's reply, and the clean-up of a reply that should be
    JSON, with its fallback for a reply that is not. */
module SkKernel {
  import opened Wrappers
  import opened Text
  import opened Json

  datatype AuthorRole = System | User | Assistant | Tool

  /** A chat message; `content` is `None` when the message has none. */
  datatype ChatMessage = ChatMessage(role: AuthorRole, content: Option<string>)

  /** `role_map.get(role, AuthorRole.USER)`. */
  function RoleOf(role: string): (r: AuthorRole)
    ensures r == System <==> role == "system"
    ensures r == Assistant <==> role == "assistant"
    ensures r != Tool
  {
    if role == "system" then System
    else if role == "assistant" then Assistant
    else User
  }

  /** The message `_build_chat_history` adds for one pair. */
  function MessageOf(pair: (string, string)): ChatMessage {
    ChatMessage(RoleOf(pair.0), Some(pair.1))
  }

  /** `_build_chat_history`: one message per pair, in order. */
  method BuildChatHistory(messages: seq<(string, string)>) returns (chat: seq<ChatMessage>)
    ensures |chat| == |messages|
    ensures forall i :: 0 <= i < |messages| ==> chat[i] == MessageOf(messages[i])
  {
    chat := [];
    for i := 0 to |messages|
      invariant |chat| == i
      invariant forall j :: 0 <= j < i ==> chat[j] == MessageOf(messages[j])
    {
      var (role, content) := messages[i];
      chat := chat + [ChatMessage(RoleOf(role), Some(content))];
    }
  }

  // ---------------------------------------------------------------- reply text

  /** A message whose content is truthy. */
  predicate HasText(m: ChatMessage) {
    m.content.Some? && m.content.value != ""
  }

  /** A message the loop of `_extract_first_assistant_text` returns from. */
  predicate Speaks(m: ChatMessage) {
    m.role == Assistant && HasText(m)
  }

  /** The index of the first assistant message with content, or `|results|`. */
  function FirstSpeaker(results: seq<ChatMessage>): (i: nat)
    ensures i <= |results|
    ensures i < |results| ==> Speaks(results[i])
    ensures forall j :: 0 <= j < i ==> !Speaks(results[j])
  {
    if |results| == 0 then 0
    else if Speaks(results[0]) then 0
    else 1 + FirstSpeaker(results[1..])
  }

  /** `_extract_first_assistant_text`: the stripped content of the first assistant
      message that has content; without one, the stripped content of the first
      message, or "" when it has none or there are no messages. */
  function FirstAssistantText(results: seq<ChatMessage>): (r: string)
    ensures |results| == 0 ==> r == ""
    ensures FirstSpeaker(results) < |results| ==> r == Strip(results[FirstSpeaker(results)].content.value)
    ensures 0 < |results| && FirstSpeaker(results) == |results| ==>
      r == (if HasText(results[0]) then Strip(results[0].content.value) else "")
    ensures IsStripped(r)
  {
    var i := FirstSpeaker(results);
    if |results| == 0 then ""
    else if i < |results| then Strip(results[i].content.value)
    else if HasText(results[0]) then Strip(results[0].content.value)
    else ""
  }

  /** The loop of `_extract_first_assistant_text`. */
  method ExtractFirstAssistantText(results: seq<ChatMessage>) returns (text: string)
    ensures text == FirstAssistantText(results)
  {
    if |results| == 0 {
      return "";
    }
    var i := 0;
    while i < |results|
      invariant 0 <= i <= |results|
      invariant forall j :: 0 <= j < i ==> !Speaks(results[j])
    {
      var msg := results[i];
      if msg.role == Assistant && msg.content.Some? && msg.content.value != "" {
        FirstSpeakerIs(results, i);
        return Strip(msg.content.value);
      }
      i := i + 1;
    }
    FirstSpeakerIs(results, |results|);
    var first := results[0];
    text := if first.content.Some? && first.content.value != "" then Strip(first.content.value) else "";
  }

  /** The first speaker is the index before which nobody speaks and at which someone
      does (or the end). */
  lemma {:induction false} FirstSpeakerIs(results: seq<ChatMessage>, i: nat)
    requires i <= |results|
    requires forall j :: 0 <= j < i ==> !Speaks(results[j])
    requires i < |results| ==> Speaks(results[i])
    ensures FirstSpeaker(results) == i
  {
    if i > 0 {
      assert !Speaks(results[0]);
      FirstSpeakerIs(results[1..], i - 1);
    }
  }

  /** The assistant's answer is taken over an earlier user message. */
  lemma AssistantOverUser(u: string, a: string)
    requires a != ""
    ensures FirstAssistantText([ChatMessage(User, Some(u)), ChatMessage(Assistant, Some(a))]) == Strip(a)
  {
    var results := [ChatMessage(User, Some(u)), ChatMessage(Assistant, Some(a))];
    FirstSpeakerIs(results, 1);
  }

  // ---------------------------------------------------------------- JSON text

  /** The match of `^```(?:json)?\s*(.*)\s*```$` (dot matching newlines, the tag in
      any case) on a stripped text: group 1, which starts after the whitespace that
      follows the opening fence and its tag and ends at the closing fence. The
      greedy `.*` leaves the second `\s*` nothing to match. */
  function FenceInner(c: string): (r: Option<string>)
    ensures r.Some? ==> |r.value| + 6 <= |c|
    ensures r.Some? <==> |c| >= 6 && StartsWith(c, "```") && EndsWith(c, "```")
  {
    if |c| >= 6 && StartsWith(c, "```") && EndsWith(c, "```") then
      Some(LStrip(c[3 + TagLength(c)..|c| - 3]))
    else None
  }

  /** The length of the optional "json" after the opening fence. */
  function TagLength(c: string): (n: nat)
    requires |c| >= 6
    ensures n == 0 || n == 4
    ensures n == 4 ==> |c| >= 10
  {
    if |c| >= 10 && JsonWord(c[3..7]) then 4 else 0
  }

  /** The word "json" in any case. */
  predicate JsonWord(w: string) {
    |w| == 4 && LowerChar(w[0]) == 'j' && LowerChar(w[1]) == 's' && LowerChar(w[2]) == 'o' && LowerChar(w[3]) == 'n'
  }

  /** `c.lower().startswith("json ")`: only a space lowers to a space. */
  predicate JsonWordFirst(c: string) {
    |c| >= 5 && JsonWord(c[..4]) && c[4] == ' '
  }

  /** `_clean_json_text`: an empty text is returned as it is; otherwise the stripped
      text, unwrapped from a fence around all of it, with a leading "json " in any
      case removed. */
  function CleanJsonText(text: string): (r: string)
    ensures text == "" ==> r == ""
    ensures text != "" ==> IsStripped(r)
    ensures |r| <= |text|
  {
    if text == "" then text
    else
      var cleaned := Strip(text);
      var c1 := match FenceInner(cleaned) case Some(g) => Strip(g) case None => cleaned;
      if JsonWordFirst(c1) then Strip(c1[5..]) else c1
  }

  /** A text that starts like a JSON object or array. */
  predicate JsonStart(body: string) {
    |body| > 0 && (body[0] == '{' || body[0] == '[')
  }

  lemma JsonStartNotWord(body: string)
    requires JsonStart(body)
    ensures !JsonWordFirst(body)
    ensures !IsSpace(body[0]) && body[0] != '`'
  {
    if |body| >= 5 {
      assert body[..4][0] == body[0];
    }
  }

  /** The tag of a fence: nothing, or "json" in any case. */
  predicate JsonTag(tag: string) {
    tag == "" || JsonWord(tag)
  }

  /** A word of four characters with a space or a bracket in it is not "json" in
      any case. */
  lemma NotJsonWord(w: string, p: nat)
    requires |w| == 4 && p < 4
    requires IsSpace(w[p]) || w[p] == '{' || w[p] == '['
    ensures !JsonWord(w)
  {
    assert LowerChar(w[p]) == w[p];
  }

  /** Text that starts with whitespace or a bracket does not start with the tag. */
  lemma UntaggedNoWord(pre: string, body: string, rest: string)
    requires AllSpace(pre) && JsonStart(body)
    requires |pre + body + rest| >= 4
    ensures !JsonWord((pre + body + rest)[..4])
  {
    var x := pre + body + rest;
    if |pre| >= 4 {
      NotJsonWord(x[..4], 0);
    } else {
      assert x[..4][|pre|] == body[0];
      NotJsonWord(x[..4], |pre|);
    }
  }

  /** The group of a text fenced on both sides: what lies between the fences, less
      a leading tag and the whitespace after it. */
  lemma FenceInnerOf(f: string, mid: string)
    requires f == "```"
    ensures FenceInner(f + mid + f)
      == Some(LStrip(if |mid| >= 4 && JsonWord(mid[..4]) then mid[4..] else mid))
  {
    FenceMatches(f, mid);
    FenceGroup(f, mid);
  }

  lemma FenceSlices(f: string, mid: string)
    requires |f| == 3
    ensures var c := f + mid + f;
      c[..3] == f && c[|c| - 3..] == f && c[3..|c| - 3] == mid
  {
  }

  lemma FenceMatches(f: string, mid: string)
    requires f == "```"
    ensures var c := f + mid + f; |c| >= 6 && StartsWith(c, "```") && EndsWith(c, "```")
  {
    FenceSlices(f, mid);
  }

  lemma FenceGroup(f: string, mid: string)
    requires |f| == 3
    ensures var c := f + mid + f;
      |c| >= 6 && c[3 + TagLength(c)..|c| - 3] == (if |mid| >= 4 && JsonWord(mid[..4]) then mid[4..] else mid)
  {
    var c := f + mid + f;
    FenceSlices(f, mid);
    if |c| >= 10 {
      assert c[3..7] == mid[..4];
      assert c[7..|c| - 3] == mid[4..];
    }
  }

  lemma FencePartsUntagged(pre: string, body: string, post: string)
    requires AllSpace(pre) && AllSpace(post) && JsonStart(body)
    ensures var c := "```" + pre + body + post + "```";
      FenceInner(c) == Some(LStrip(pre + body + post))
  {
    var mid := pre + body + post;
    assert "```" + pre + body + post + "```" == "```" + mid + "```";
    FenceInnerOf("```", mid);
    if |mid| >= 4 {
      assert mid == pre + body + post;
      UntaggedNoWord(pre, body, post);
    }
  }

  lemma FencePartsTagged(tag: string, pre: string, body: string, post: string)
    requires JsonWord(tag)
    ensures var c := "```" + tag + pre + body + post + "```";
      FenceInner(c) == Some(LStrip(pre + body + post))
  {
    var mid := tag + (pre + body + post);
    assert "```" + tag + pre + body + post + "```" == "```" + mid + "```";
    FenceInnerOf("```", mid);
    assert mid[..4] == tag && mid[4..] == pre + body + post;
  }

  lemma FenceParts(tag: string, pre: string, body: string, post: string)
    requires JsonTag(tag) && AllSpace(pre) && AllSpace(post) && JsonStart(body)
    ensures var c := "```" + tag + pre + body + post + "```";
      FenceInner(c) == Some(LStrip(pre + body + post))
  {
    if tag == "" {
      assert "```" + tag + pre + body + post + "```" == "```" + pre + body + post + "```";
      FencePartsUntagged(pre, body, post);
    } else {
      FencePartsTagged(tag, pre, body, post);
    }
  }

  lemma StripFenceBody(pre: string, body: string, post: string)
    requires AllSpace(pre) && AllSpace(post) && IsStripped(body) && JsonStart(body)
    ensures Strip(LStrip(pre + body + post)) == body
  {
    assert pre + body + post == pre + (body + post);
    LStripSpaces(pre, body + post);
    LStripSpaces("", body + post);
    assert "" + (body + post) == body + post;
    RStripSpaces(body, post);
  }

  /** A JSON object or array fenced with ``` or ```json (the tag in any case), with
      any whitespace around it inside the fence, comes back as it is. */
  lemma CleanFencedJson(tag: string, pre: string, body: string, post: string)
    requires JsonTag(tag) && AllSpace(pre) && AllSpace(post)
    requires JsonStart(body) && IsStripped(body)
    ensures CleanJsonText("```" + tag + pre + body + post + "```") == body
  {
    var c := "```" + tag + pre + body + post + "```";
    assert c[0] == '`' && c[|c| - 1] == '`';
    StripStripped(c);
    FenceParts(tag, pre, body, post);
    StripFenceBody(pre, body, post);
    JsonStartNotWord(body);
  }

  lemma WordTextStripped(word: string, body: string)
    requires JsonWord(word)
    requires JsonStart(body) && IsStripped(body)
    ensures Strip(word + " " + body) == word + " " + body
    ensures FenceInner(word + " " + body).None?
  {
    var c := word + " " + body;
    assert c[0] == word[0] && c[|c| - 1] == body[|body| - 1];
    StripStripped(c);
  }

  lemma WordFirst(word: string, body: string)
    requires JsonWord(word)
    ensures JsonWordFirst(word + " " + body)
    ensures (word + " " + body)[5..] == body
  {
    var c := word + " " + body;
    assert c[..4] == word && c[4] == ' ';
  }

  /** A JSON object or array after the word "json" (in any case) and a space loses
      the word. */
  lemma CleanJsonWord(word: string, body: string)
    requires JsonWord(word)
    requires JsonStart(body) && IsStripped(body)
    ensures CleanJsonText(word + " " + body) == body
  {
    WordTextStripped(word, body);
    WordFirst(word, body);
    StripStripped(body);
  }

  /** A text that holds no fence and no leading "json " is only stripped. */
  lemma CleanPlainText(text: string)
    requires text != ""
    requires FenceInner(Strip(text)).None?
    requires !JsonWordFirst(Strip(text))
    ensures CleanJsonText(text) == Strip(text)
  {
  }

  // ---------------------------------------------------------------- replies

  /** `get_llm_response_async` after the model replied: the cleaned reply text parsed
      as JSON, or `{"summary": text, "bullets": []}` when it does not parse. A model
      call that raises propagates as `Failure`. */
  function LlmResponse(reply: Call<seq<ChatMessage>>, b: Builtins): (r: Result<Json>)
    ensures r.Failure? <==> reply.Raised?
    ensures reply.Returned? && b.loads(CleanJsonText(FirstAssistantText(reply.value))).Ok? ==>
      r == b.loads(CleanJsonText(FirstAssistantText(reply.value)))
    ensures reply.Returned? && b.loads(CleanJsonText(FirstAssistantText(reply.value))).Failure? ==>
      r == Ok(SummaryFallback(CleanJsonText(FirstAssistantText(reply.value))))
  {
    match reply
    case Raised(message) => Failure(message)
    case Returned(results) =>
      var text := CleanJsonText(FirstAssistantText(results));
      match b.loads(text)
      case Ok(v) => Ok(v)
      case Failure(_) => Ok(SummaryFallback(text))
  }

  /** The best-effort structure for a reply that is not JSON. */
  function SummaryFallback(text: string): Json {
    Obj([("summary", Str(text)), ("bullets", Arr([]))])
  }

  /** The fallback carries the cleaned text as its summary and no bullets. */
  lemma SummaryFallbackFields(text: string)
    ensures GetOr(SummaryFallback(text).fields, "summary", Null) == Str(text)
    ensures GetOr(SummaryFallback(text).fields, "bullets", Null) == Arr([])
    ensures Keys(SummaryFallback(text).fields) == ["summary", "bullets"]
  {
    GetAt(SummaryFallback(text).fields, 1);
  }

  /** When the model answers with a fenced JSON object, the parsed object is what
      comes back. */
  lemma LlmResponseFenced(tag: string, body: string, v: Json, b: Builtins)
    requires JsonTag(tag) && JsonStart(body) && IsStripped(body)
    requires b.loads(body) == Ok(v)
    ensures LlmResponse(Returned([ChatMessage(Assistant, Some("```" + tag + "\n" + body + "\n```"))]), b) == Ok(v)
  {
    var text := "```" + tag + "\n" + body + "\n```";
    assert text == "```" + tag + "\n" + body + "\n" + "```";
    assert AllSpace("\n");
    CleanFencedJson(tag, "\n", body, "\n");
    assert text[0] == '`' && text[|text| - 1] == '`';
    StripStripped(text);
    FirstSpeakerIs([ChatMessage(Assistant, Some(text))], 0);
  }
}
