/** The copilot chat: the small-talk recogniser with its five patterns, the canned
    replies, and the order in which the chat handler picks its branch. */
module Copilot {
  import opened Wrappers
  import opened Text
  import Json
  import Schemas
  import Cases

  // ---------------------------------------------------------------- patterns

  /** `\s+` followed by one of `words` up to the end of the text. */
  predicate SpacedWord(s: string, words: set<string>) {
    |LStrip(s)| < |s| && LStrip(s) in words
  }

  /** `prefix\s+word$` for one of the words. */
  predicate PrefixSpacedWord(s: string, prefix: string, words: set<string>) {
    prefix <= s && SpacedWord(s[|prefix|..], words)
  }

  // The words named in the patterns never begin with whitespace or with `!` or `.`,
  // so each optional or repeated part of a pattern can be matched greedily.

  /** `^(hi|hello|hey|howdy)( there)?$` */
  predicate Greeting(s: string) {
    s in {"hi", "hello", "hey", "howdy"}
    || (|s| >= 6 && s[|s| - 6..] == " there" && s[..|s| - 6] in {"hi", "hello", "hey", "howdy"})
  }

  /** `^(good\s+(morning|afternoon|evening))$` */
  predicate TimeOfDay(s: string) {
    PrefixSpacedWord(s, "good", {"morning", "afternoon", "evening"})
  }

  /** `[!.]?\s*(copilot|there)?$`, what follows the greeting word of `Hail`. */
  predicate HailTail(s: string) {
    var rest := if |s| > 0 && (s[0] == '!' || s[0] == '.') then s[1..] else s;
    LStrip(rest) in {"", "copilot", "there"}
  }

  /** `^(hi|hello|hey)[!.]?\s*(copilot|there)?$` */
  predicate Hail(s: string) {
    ("hi" <= s && HailTail(s[2..])) || ("hello" <= s && HailTail(s[5..])) || ("hey" <= s && HailTail(s[3..]))
  }

  /** `^(thanks|thank\s+you)$` */
  predicate Thanks(s: string) {
    s == "thanks" || PrefixSpacedWord(s, "thank", {"you"})
  }

  /** `^(what's\s+up|whats\s+up)$` */
  predicate WhatsUp(s: string) {
    PrefixSpacedWord(s, "what's", {"up"}) || PrefixSpacedWord(s, "whats", {"up"})
  }

  /** `prefix\s+word$` written out: the prefix, whitespace, then a text that does not
      begin with whitespace matches exactly when the whitespace is there and the text
      is one of the words. */
  lemma PrefixSpacedWordSpelled(prefix: string, sp: string, w: string, words: set<string>)
    requires AllSpace(sp) && (|w| == 0 || !IsSpace(w[0]))
    ensures PrefixSpacedWord(prefix + sp + w, prefix, words) <==> |sp| > 0 && w in words
  {
    assert (prefix + sp + w)[|prefix|..] == sp + w;
    LStripSpaces(sp, w);
  }

  /** Every match of `prefix\s+word$` is written that way. */
  lemma PrefixSpacedWordParts(s: string, prefix: string, words: set<string>) returns (sp: string, w: string)
    requires PrefixSpacedWord(s, prefix, words)
    ensures AllSpace(sp) && |sp| > 0 && (|w| == 0 || !IsSpace(w[0])) && w in words
    ensures s == prefix + sp + w
  {
    var t := s[|prefix|..];
    PrefixSplit(s, prefix);
    sp, w := LeadingSpace(t);
    Rejoin(s, prefix, t, sp, w);
  }

  lemma PrefixSplit(s: string, prefix: string)
    requires prefix <= s
    ensures s == prefix + s[|prefix|..]
  {
  }

  /** The greeting pattern matches exactly eight texts. */
  lemma GreetingWords(s: string)
    ensures Greeting(s) <==> s in {"hi", "hello", "hey", "howdy", "hi there", "hello there", "hey there", "howdy there"}
  {
    if |s| >= 6 && s[|s| - 6..] == " there" && s[..|s| - 6] in {"hi", "hello", "hey", "howdy"} {
      var w := s[..|s| - 6];
      assert s == w + " there";
      if w == "hi" {
        assert s == "hi there";
      } else if w == "hello" {
        assert s == "hello there";
      } else if w == "hey" {
        assert s == "hey there";
      } else {
        assert s == "howdy there";
      }
    }
    if s == "hi there" {
      ThereGreeting("hi", s);
    } else if s == "hello there" {
      ThereGreeting("hello", s);
    } else if s == "hey there" {
      ThereGreeting("hey", s);
    } else if s == "howdy there" {
      ThereGreeting("howdy", s);
    }
  }

  lemma ThereGreeting(w: string, s: string)
    requires w in {"hi", "hello", "hey", "howdy"} && s == w + " there"
    ensures Greeting(s)
  {
    assert s[|s| - 6..] == " there" && s[..|s| - 6] == w;
  }

  /** `good\s+(morning|afternoon|evening)`, written out. */
  lemma TimeOfDaySpelled(sp: string, w: string)
    requires AllSpace(sp) && (|w| == 0 || !IsSpace(w[0]))
    ensures TimeOfDay("good" + sp + w) <==> |sp| > 0 && w in {"morning", "afternoon", "evening"}
  {
    PrefixSpacedWordSpelled("good", sp, w, {"morning", "afternoon", "evening"});
  }

  /** `thanks|thank\s+you`, written out: "thank", then either "s" directly or
      whitespace and "you". */
  lemma ThanksSpelled(sp: string, w: string)
    requires AllSpace(sp) && (|w| == 0 || !IsSpace(w[0]))
    ensures Thanks("thank" + sp + w) <==> (|sp| > 0 && w == "you") || (sp == "" && w == "s")
  {
    var s := "thank" + sp + w;
    PrefixSpacedWordSpelled("thank", sp, w, {"you"});
    if |sp| == 0 {
      assert s == "thank" + w;
      assert s[5..] == w;
    } else {
      assert s[5] == sp[0];
      assert s[5] != 's';
    }
  }

  /** `what's\s+up|whats\s+up`, written out. */
  lemma WhatsUpSpelled(p: string, sp: string, w: string)
    requires p in {"what's", "whats"}
    requires AllSpace(sp) && (|w| == 0 || !IsSpace(w[0]))
    ensures WhatsUp(p + sp + w) <==> |sp| > 0 && w == "up"
  {
    var s := p + sp + w;
    assert s[4] == p[4];
    PrefixSpacedWordSpelled(p, sp, w, {"up"});
  }

  /** `[!.]?\s*(copilot|there)?`, written out: every such text is a hail tail. */
  lemma HailTailSpelled(p: string, sp: string, t: string)
    requires p in {"", "!", "."} && AllSpace(sp) && t in {"", "copilot", "there"}
    ensures HailTail(p + sp + t)
  {
    if p == "" {
      assert p + sp + t == sp + t;
      HailTailBare(sp, t);
    } else {
      HailTailPunct(p, sp, t);
    }
  }

  /** The tail without its optional `!` or `.`. */
  lemma HailTailBare(sp: string, t: string)
    requires AllSpace(sp) && t in {"", "copilot", "there"}
    ensures HailTail(sp + t)
  {
    var s := sp + t;
    assert t == "" || t[0] == 'c' || t[0] == 't';
    if |sp| > 0 {
      assert s[0] == sp[0] && IsSpace(sp[0]);
    } else {
      assert s == t;
    }
    LStripSpaces(sp, t);
  }

  /** The tail with its `!` or `.`. */
  lemma HailTailPunct(p: string, sp: string, t: string)
    requires p in {"!", "."} && AllSpace(sp) && t in {"", "copilot", "there"}
    ensures HailTail(p + sp + t)
  {
    var s := p + sp + t;
    assert s[1..] == sp + t;
    LStripSpaces(sp, t);
  }

  /** `(hi|hello|hey)[!.]?\s*(copilot|there)?`, written out: every such text is a hail. */
  lemma HailSpelled(g: string, p: string, sp: string, t: string)
    requires g in {"hi", "hello", "hey"} && p in {"", "!", "."}
    requires AllSpace(sp) && t in {"", "copilot", "there"}
    ensures Hail(g + p + sp + t)
  {
    var rest := p + sp + t;
    HailTailSpelled(p, sp, t);
    Regroup(g, p, sp, t);
    DropPrefix(g, rest);
  }

  lemma Regroup(g: string, p: string, sp: string, t: string)
    ensures g + p + sp + t == g + (p + sp + t)
  {
  }

  lemma DropPrefix(g: string, rest: string)
    ensures g <= g + rest && (g + rest)[|g|..] == rest
  {
  }

  /** Every hail tail is written that way. */
  lemma HailTailParts(tail: string) returns (p: string, sp: string, t: string)
    requires HailTail(tail)
    ensures p in {"", "!", "."}
    ensures AllSpace(sp)
    ensures t in {"", "copilot", "there"}
    ensures tail == p + sp + t
  {
    var punct := |tail| > 0 && (tail[0] == '!' || tail[0] == '.');
    p := if punct then [tail[0]] else "";
    var rest := if punct then tail[1..] else tail;
    if punct {
      HeadTail(tail);
    }
    sp, t := LeadingSpace(rest);
    Rejoin(tail, p, rest, sp, t);
  }

  lemma HeadTail(s: string)
    requires |s| > 0
    ensures s == [s[0]] + s[1..]
  {
  }

  lemma Rejoin(s: string, p: string, rest: string, sp: string, t: string)
    requires s == p + rest && rest == sp + t
    ensures s == p + sp + t
  {
  }

  /** A text is its leading whitespace followed by what `lstrip` keeps. */
  lemma LeadingSpace(s: string) returns (sp: string, t: string)
    ensures AllSpace(sp) && t == LStrip(s) && s == sp + t
  {
    t := LStrip(s);
    sp := s[..|s| - |t|];
    assert s == sp + t;
  }

  /** Every hail is written that way. */
  lemma HailParts(s: string) returns (g: string, p: string, sp: string, t: string)
    requires Hail(s)
    ensures g in {"hi", "hello", "hey"} && p in {"", "!", "."}
    ensures AllSpace(sp) && t in {"", "copilot", "there"}
    ensures s == g + p + sp + t
  {
    g := HailWord(s);
    p, sp, t := HailPartsAfter(s, g);
  }

  /** The greeting word a hail begins with. */
  function HailWord(s: string): (g: string)
    requires Hail(s)
    ensures g in {"hi", "hello", "hey"} && g <= s && HailTail(s[|g|..])
  {
    if "hi" <= s && HailTail(s[2..]) then "hi"
    else if "hello" <= s && HailTail(s[5..]) then "hello"
    else "hey"
  }

  /** A hail split after its greeting word. */
  lemma HailPartsAfter(s: string, g: string) returns (p: string, sp: string, t: string)
    requires g in {"hi", "hello", "hey"} && g <= s && HailTail(s[|g|..])
    ensures g in {"hi", "hello", "hey"} && p in {"", "!", "."}
    ensures AllSpace(sp) && t in {"", "copilot", "there"}
    ensures s == g + p + sp + t
  {
    p, sp, t := HailTailParts(s[|g|..]);
    PrefixJoin(s, g, p, sp, t);
  }

  lemma PrefixJoin(s: string, g: string, p: string, sp: string, t: string)
    requires g <= s && s[|g|..] == p + sp + t
    ensures s == g + p + sp + t
  {
    assert s == g + s[|g|..];
  }

  /** `message.strip().lower()`. */
  function Clean(message: string): string {
    Lower(Strip(message))
  }

  /** No pattern matches a text shorter than two characters. */
  lemma ShortIsNotSmallTalk(c: string)
    ensures |c| < 2 ==> !(Greeting(c) || TimeOfDay(c) || Hail(c) || Thanks(c) || WhatsUp(c))
  {
    GreetingWords(c);
  }

  /** `_is_small_talk`: one of the five patterns, tried in order, matches the whole
      cleaned text, which must not be empty. */
  predicate IsSmallTalk(message: string): (r: bool)
    ensures r ==> 2 <= |Strip(message)|
  {
    var c := Clean(message);
    ShortIsNotSmallTalk(c);
    |c| > 0 && (Greeting(c) || TimeOfDay(c) || Hail(c) || Thanks(c) || WhatsUp(c))
  }

  /** Whitespace around a message does not change whether it is small talk. */
  lemma SmallTalkIgnoresPadding(pre: string, message: string, post: string)
    requires AllSpace(pre) && AllSpace(post)
    ensures IsSmallTalk(pre + message + post) <==> IsSmallTalk(message)
  {
    StripPadded(pre, message, post);
  }

  /** Letter case does not change whether a message is small talk. */
  lemma SmallTalkIgnoresCase(message: string)
    ensures IsSmallTalk(Lower(message)) <==> IsSmallTalk(message)
  {
    LowerStrip(message);
    LowerIdempotent(Strip(message));
  }

  /** Empty and whitespace-only messages are never small talk. */
  lemma BlankIsNotSmallTalk(message: string)
    requires AllSpace(message)
    ensures !IsSmallTalk(message)
  {
    StripAround(message, "", "");
    assert message + "" + "" == message;
  }

  /** A message already stripped and in lower case is its own cleaned text. */
  lemma CleanOfCleanText(message: string)
    requires IsStripped(message)
    requires forall i :: 0 <= i < |message| ==> !IsUpper(message[i])
    ensures Clean(message) == message
  {
    StripStripped(message);
    LowerIdentity(message);
  }

  lemma HelloThereClean(m: string)
    requires m == "hello there"
    ensures Clean(m) == m
  {
    CleanOfCleanText(m);
  }

  lemma HelloThereGreeting(m: string)
    requires m == "hello there"
    ensures Greeting(m)
  {
    assert m[|m| - 6..] == " there" && m[..|m| - 6] == "hello";
  }

  lemma HelloThere(m: string)
    requires m == "hello there"
    ensures IsSmallTalk(m)
  {
    HelloThereClean(m);
    HelloThereGreeting(m);
  }

  lemma GoodMorningClean(m: string)
    requires m == "good  morning"
    ensures Clean(m) == m
  {
    CleanOfCleanText(m);
  }

  lemma GoodMorningParts(m: string)
    requires m == "good  morning"
    ensures "good" <= m && m[4..] == "  " + "morning"
  {
  }

  lemma GoodMorningTime(m: string)
    requires m == "good  morning"
    ensures TimeOfDay(m)
  {
    GoodMorningParts(m);
    LStripSpaces("  ", "morning");
  }

  lemma GoodMorning(m: string)
    requires m == "good  morning"
    ensures IsSmallTalk(m)
  {
    GoodMorningClean(m);
    GoodMorningTime(m);
  }

  lemma HeyClean(m: string)
    requires m == "hey!"
    ensures Clean(m) == m
  {
    CleanOfCleanText(m);
  }

  lemma HeyHail(m: string)
    requires m == "hey!"
    ensures Hail(m)
  {
    assert "hey" <= m && m[3..] == "!";
    assert HailTail(m[3..]);
  }

  lemma Hey(m: string)
    requires m == "hey!"
    ensures IsSmallTalk(m)
  {
    HeyClean(m);
    HeyHail(m);
  }

  lemma ThankYouClean(m: string)
    requires m == "thank you"
    ensures Clean(m) == m
  {
    CleanOfCleanText(m);
  }

  lemma ThankYouParts(m: string)
    requires m == "thank you"
    ensures "thank" <= m && m[5..] == " " + "you"
  {
  }

  lemma ThankYouThanks(m: string)
    requires m == "thank you"
    ensures Thanks(m)
  {
    ThankYouParts(m);
    LStripSpaces(" ", "you");
  }

  lemma ThankYou(m: string)
    requires m == "thank you"
    ensures IsSmallTalk(m)
  {
    ThankYouClean(m);
    ThankYouThanks(m);
  }

  lemma WhatsUpClean(m: string)
    requires m == "whats up"
    ensures Clean(m) == m
  {
    CleanOfCleanText(m);
  }

  lemma WhatsUpParts(m: string)
    requires m == "whats up"
    ensures "whats" <= m && m[5..] == " " + "up"
  {
  }

  lemma WhatsUpMatch(m: string)
    requires m == "whats up"
    ensures WhatsUp(m)
  {
    WhatsUpParts(m);
    LStripSpaces(" ", "up");
  }

  lemma WhatsUpExample(m: string)
    requires m == "whats up"
    ensures IsSmallTalk(m)
  {
    WhatsUpClean(m);
    WhatsUpMatch(m);
  }

  // ---------------------------------------------------------------- replies

  const WelcomeReply: string := "You're welcome! I'm here whenever you need another underwriting assist."
  const PortfolioReply: string :=
    "Hi there! I'm ready to chat about the underwriting portfolio whenever you're ready. "
    + "Feel free to ask about risks, trends, or specific cases."
  const DefaultReply: string := "Hello! Happy to help with any underwriting questions you have."

  function CaseReply(caseId: string): string {
    "Hi there! I'm ready to dig into case " + caseId + " whenever you are. "
    + "Let me know what you'd like to explore."
  }

  /** `_small_talk_reply`: thanks first, then portfolio mode, then a non-empty case
      id, then the default greeting. */
  function SmallTalkReply(message: string, caseId: Option<string>, portfolio: bool): (r: string)
    ensures Contains(Clean(message), "thank") ==> r == WelcomeReply
    ensures !Contains(Clean(message), "thank") && portfolio ==> r == PortfolioReply
    ensures !Contains(Clean(message), "thank") && !portfolio && caseId.Some? && caseId.value != "" ==>
      r == CaseReply(caseId.value)
    ensures !Contains(Clean(message), "thank") && !portfolio && (caseId.None? || caseId.value == "") ==>
      r == DefaultReply
  {
    if Contains(Clean(message), "thank") then WelcomeReply
    else if portfolio then PortfolioReply
    else if caseId.Some? && caseId.value != "" then CaseReply(caseId.value)
    else DefaultReply
  }

  /** The case reply names the case. */
  lemma CaseReplyNamesCase(caseId: string)
    ensures Contains(CaseReply(caseId), caseId)
  {
    var pre := "Hi there! I'm ready to dig into case ";
    var r := CaseReply(caseId);
    ContainsAt(r, |pre|, caseId);
  }

  lemma {:induction false} ContainsAt(s: string, k: nat, sub: string)
    requires k + |sub| <= |s| && s[k..k + |sub|] == sub
    ensures Contains(s, sub)
  {
    if k > 0 {
      assert s[1..][k - 1..k - 1 + |sub|] == sub;
      ContainsAt(s[1..], k - 1, sub);
    } else {
      assert sub <= s;
    }
  }

  // ---------------------------------------------------------------- chat

  const FallbackAnswer: string :=
    "I wasn't able to retrieve an underwriting answer from the knowledge source just now. Please try again."

  function NotFoundAnswer(caseId: string): string {
    "I couldn't find data for case " + caseId + ". Please verify the ID and try again."
  }

  /** The branch `chat` takes. `CaseAnswer` is the branch that builds the case view
      and asks the knowledge agent, and carries the view's actions and decision;
      `CaseFailed` is the uncaught exception of `CaseContext(...)` or
      `build_case_view` on that branch (FastAPI's 500 answer); `PortfolioAnswer`
      asks the chat model about the portfolio. */
  datatype ChatRoute =
    | NotFound(answer: string)
    | SmallTalk(answer: string)
    | CaseAnswer(answer: string, actions: seq<string>, decision: Schemas.DecisionOutput)
    | CaseFailed
    | PortfolioAnswer

  /** A non-empty case id. */
  predicate HasCase(caseId: Option<string>) {
    caseId.Some? && caseId.value != ""
  }

  /** `chat`: `caseDoc` is the stored case (`None` when there is none), `view` what
      `build_case_view` returns for the case's context (`None` when it raises) and
      `knowledgeAnswer` the answer the knowledge agent gave, if any. */
  function Chat(message: string, caseId: Option<string>, caseDoc: Option<Json.Fields>,
                view: Option<Schemas.CaseViewModel>, knowledgeAnswer: Option<string>): (r: ChatRoute)
    ensures HasCase(caseId) && (caseDoc.None? || caseDoc.value == []) ==>
      r == NotFound(NotFoundAnswer(caseId.value))
    ensures r.SmallTalk? <==> IsSmallTalk(message) && !r.NotFound?
    ensures r.SmallTalk? && HasCase(caseId) ==> r.answer == SmallTalkReply(message, caseId, false)
    ensures r.SmallTalk? && !HasCase(caseId) ==> r.answer == SmallTalkReply(message, None, true)
    ensures r.CaseAnswer? || r.CaseFailed? ==>
      HasCase(caseId) && caseDoc.Some? && caseDoc.value != [] && !IsSmallTalk(message)
    ensures HasCase(caseId) && caseDoc.Some? && caseDoc.value != [] && !IsSmallTalk(message) ==>
      (r.CaseAnswer? <==> Cases.CaseContextOf(caseId.value, caseDoc.value).Ok? && view.Some?)
    ensures r.CaseAnswer? ==>
      r.answer == (if knowledgeAnswer.Some? && knowledgeAnswer.value != "" then knowledgeAnswer.value
                   else FallbackAnswer)
      && r.answer != ""
      && r.actions == view.value.actions && r.decision == view.value.decision
    ensures r.PortfolioAnswer? <==> !HasCase(caseId) && !IsSmallTalk(message)
  {
    if HasCase(caseId) then
      if caseDoc.None? || caseDoc.value == [] then NotFound(NotFoundAnswer(caseId.value))
      else if IsSmallTalk(message) then SmallTalk(SmallTalkReply(message, caseId, false))
      else if Cases.CaseContextOf(caseId.value, caseDoc.value).Failure? || view.None? then CaseFailed
      else
        var answer := if knowledgeAnswer.Some? && knowledgeAnswer.value != "" then knowledgeAnswer.value else FallbackAnswer;
        assert |FallbackAnswer| > 0;
        CaseAnswer(answer, view.value.actions, view.value.decision)
    else if IsSmallTalk(message) then SmallTalk(SmallTalkReply(message, None, true))
    else PortfolioAnswer
  }

  /** The not-found and small-talk answers are given before the case view is built
      and the knowledge agent is asked, so they depend on neither. */
  lemma AnsweredWithoutAgent(message: string, caseId: Option<string>, caseDoc: Option<Json.Fields>,
                             v1: Option<Schemas.CaseViewModel>, a1: Option<string>,
                             v2: Option<Schemas.CaseViewModel>, a2: Option<string>)
    requires Chat(message, caseId, caseDoc, v1, a1).NotFound? || Chat(message, caseId, caseDoc, v1, a1).SmallTalk?
    ensures Chat(message, caseId, caseDoc, v2, a2) == Chat(message, caseId, caseDoc, v1, a1)
  {
  }
}
