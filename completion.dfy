/**
 * The completion helpers of the two server controllers
 * (Backend/controllers/chat.controller.js, Backend/controllers/call.controller.js):
 * the role-tagged history sent to the chat-completion endpoint, the
 * "degrade, never fail" reply helper, and the chat-title helper with its
 * clean-up of the model's reply.
 *
 * The endpoint is an oracle `complete`: it answers a request with the reply
 * text `choices[0].message.content`, or None when the call throws (network
 * error, error status, a reply without `choices[0].message`). A reply whose
 * `message.content` is missing or not a string is not part of this model.
 * The API key is a flag.
 */
module Completion {
  import opened Common
  import opened Conversation
  import JsString

  datatype Role = SystemRole | UserRole | AssistantRole

  /** The fixed system prompts; their wording is not part of this model. */
  datatype Prompt = TextCompanionPrompt | VoiceCompanionPrompt | TitlePrompt | ClientCompanionPrompt

  datatype Content = Instructions(prompt: Prompt) | Text(text: string)

  datatype Entry = Entry(role: Role, content: Content)

  /** The body of a POST to the chat-completions endpoint (the model name is fixed and left out). */
  datatype Request = Request(messages: seq<Entry>, maxTokens: nat, temperature: real)

  /** Which controller asks: the chat controller allows 500 tokens, the voice-call controller 150. */
  datatype Persona = TextChat | VoiceCall

  function PromptOf(p: Persona): Prompt {
    match p
    case TextChat => TextCompanionPrompt
    case VoiceCall => VoiceCompanionPrompt
  }

  function MaxTokens(p: Persona): nat {
    match p
    case TextChat => 500
    case VoiceCall => 150
  }

  const Temperature: real := 0.7

  const UnavailableReply: string := "I'm sorry, but the AI service is currently unavailable. Please check back later."

  const ApologyReply: string := "I'm sorry, I'm having trouble processing your request right now. Could you try again in a moment?"

  /** `msg.sender === "user" ? "user" : "assistant"`. */
  function RoleOf(s: Sender): (r: Role)
    ensures r == UserRole <==> s == User
    ensures r != SystemRole
  {
    if s == User then UserRole else AssistantRole
  }

  /** The formatted message list: the persona's system prompt, then one entry per stored message, in order. */
  ghost predicate IsFormattedHistory(p: Persona, history: seq<Turn>, formatted: seq<Entry>) {
    && |formatted| == |history| + 1
    && formatted[0] == Entry(SystemRole, Instructions(PromptOf(p)))
    && forall i :: 1 <= i < |formatted| ==>
         formatted[i] == Entry(RoleOf(history[i - 1].sender), Text(history[i - 1].content))
  }

  /** The `forEach`/`push` loop that builds `formattedMessages`. */
  method FormatHistory(p: Persona, history: seq<Turn>) returns (formatted: seq<Entry>)
    ensures IsFormattedHistory(p, history, formatted)
  {
    formatted := [Entry(SystemRole, Instructions(PromptOf(p)))];
    var i := 0;
    while i < |history|
      invariant 0 <= i <= |history|
      invariant |formatted| == i + 1
      invariant formatted[0] == Entry(SystemRole, Instructions(PromptOf(p)))
      invariant forall j :: 1 <= j < |formatted| ==> formatted[j] == Entry(RoleOf(history[j - 1].sender), Text(history[j - 1].content))
    {
      formatted := formatted + [Entry(RoleOf(history[i].sender), Text(history[i].content))];
      i := i + 1;
    }
  }

  /** Only one list satisfies the description: the request is determined by the history. */
  lemma FormattedHistoryUnique(p: Persona, history: seq<Turn>, f1: seq<Entry>, f2: seq<Entry>)
    requires IsFormattedHistory(p, history, f1) && IsFormattedHistory(p, history, f2)
    ensures f1 == f2
  {
    assert forall k :: 0 <= k < |f1| ==> f1[k] == f2[k];
  }

  /** The user turns of the history are exactly the entries tagged with the user role. */
  lemma UserRoleIffUserSender(p: Persona, history: seq<Turn>, formatted: seq<Entry>, i: nat)
    requires IsFormattedHistory(p, history, formatted) && i < |history|
    ensures formatted[i + 1].role == UserRole <==> history[i].sender == User
    ensures formatted[i + 1].content == Text(history[i].content)
  {
  }

  /** The chat-completion endpoint as the controllers see it: whether the API key is set, and the call itself. */
  datatype Llm = Llm(hasKey: bool, complete: Request -> Option<string>)

  /** The formatted history as a value. */
  function Formatted(p: Persona, history: seq<Turn>): (f: seq<Entry>)
    ensures IsFormattedHistory(p, history, f)
  {
    [Entry(SystemRole, Instructions(PromptOf(p)))]
      + seq(|history|, i requires 0 <= i < |history| => Entry(RoleOf(history[i].sender), Text(history[i].content)))
  }

  function ReplyRequest(p: Persona, history: seq<Turn>): Request {
    Request(Formatted(p, history), MaxTokens(p), Temperature)
  }

  /** What `getAIResponse` answers for a history, as a value (used by the handlers' specifications). */
  function AIReply(p: Persona, llm: Llm, history: seq<Turn>): string {
    if !llm.hasKey then UnavailableReply else llm.complete(ReplyRequest(p, history)).GetOr(ApologyReply)
  }

  /**
   * `getAIResponse`: never throws. Without a key it answers the fixed
   * "unavailable" text without calling the endpoint; otherwise it sends the
   * persona's request for the whole history and answers the reply, or the
   * fixed apology when the call fails.
   */
  method GetAIResponse(p: Persona, llm: Llm, history: seq<Turn>) returns (reply: string, sent: Option<Request>)
    ensures !llm.hasKey ==> reply == UnavailableReply && sent == None
    ensures llm.hasKey ==> sent.Some?
    ensures sent.Some? ==> IsFormattedHistory(p, history, sent.value.messages)
    ensures sent.Some? ==> sent.value.maxTokens == MaxTokens(p) && sent.value.temperature == Temperature
    ensures sent.Some? && llm.complete(sent.value).Some? ==> reply == llm.complete(sent.value).value
    ensures sent.Some? && llm.complete(sent.value).None? ==> reply == ApologyReply
    ensures reply == AIReply(p, llm, history)
  {
    if !llm.hasKey {
      return UnavailableReply, None;
    }
    var formatted := FormatHistory(p, history);
    FormattedHistoryUnique(p, history, formatted, Formatted(p, history));
    var request := Request(formatted, MaxTokens(p), Temperature);
    sent := Some(request);
    match llm.complete(request)
    case Some(content) =>
      reply := content;
    case None =>
      reply := ApologyReply;
  }

  const NewConversationTitle: string := "New Conversation"

  /** The request `generateChatTitle` sends: the title prompt and the first message quoted in a fixed sentence. */
  function TitleRequest(message: string): (r: Request)
    ensures |r.messages| == 2 && r.messages[0].role == SystemRole && r.messages[1].role == UserRole
    ensures r.maxTokens == 20
  {
    Request(
      [Entry(SystemRole, Instructions(TitlePrompt)),
       Entry(UserRole, Text("Generate a short title for a chat that starts with: \"" + message + "\""))],
      20, Temperature)
  }

  predicate IsQuote(c: char) {
    c == '"' || c == '\''
  }

  /**
   * `/^["'](.*)["']$/` on a whole string: a quote, any characters other than
   * line terminators (`.`), a quote. The two quotes need not be the same character.
   */
  predicate QuotedLine(t: string) {
    && |t| >= 2 && IsQuote(t[0]) && IsQuote(t[|t| - 1])
    && forall i :: 0 < i < |t| - 1 ==> !JsString.IsLineTerminator(t[i])
  }

  /** `trim()`, then `replace(/^["'](.*)["']$/, "$1")`. */
  function CleanTitle(reply: string): string {
    var t := JsString.Trim(reply);
    if QuotedLine(t) then t[1..|t| - 1] else t
  }

  /** Clean-up removes exactly one pair of enclosing quotes from a single-line title. */
  lemma CleanTitleUnquotes(q1: char, x: string, q2: char)
    requires IsQuote(q1) && IsQuote(q2)
    requires forall i :: 0 <= i < |x| ==> !JsString.IsLineTerminator(x[i])
    ensures CleanTitle([q1] + x + [q2]) == x
  {
    var s := [q1] + x + [q2];
    JsString.TrimOfUnpadded(s);
    assert QuotedLine(s) by {
      forall i | 0 < i < |s| - 1 ensures !JsString.IsLineTerminator(s[i]) {
        assert s[i] == x[i - 1];
      }
    }
    assert s[1..|s| - 1] == x;
  }

  /** A reply that does not start and end with a quote is only trimmed. */
  lemma CleanTitleUnquoted(reply: string)
    requires var t := JsString.Trim(reply); |t| < 2 || !IsQuote(t[0]) || !IsQuote(t[|t| - 1])
    ensures CleanTitle(reply) == JsString.Trim(reply)
  {
  }

  /** The title is always a piece of the reply. */
  lemma CleanTitleIsInfix(reply: string)
    ensures exists i, j :: 0 <= i <= j <= |reply| && CleanTitle(reply) == reply[i..j]
  {
    var i, j := JsString.TrimStartIndex(reply), JsString.TrimEndIndex(reply);
    var t := reply[i..j];
    assert JsString.Trim(reply) == t;
    if QuotedLine(t) {
      assert i + 1 <= j - 1;
      assert CleanTitle(reply) == t[1..|t| - 1];
      var inner := t[1..|t| - 1];
      assert |inner| == |reply[i + 1..j - 1]|;
      forall k | 0 <= k < |inner| ensures inner[k] == reply[i + 1..j - 1][k] {
        assert inner[k] == t[k + 1] == reply[i + 1 + k];
      }
      assert inner == reply[i + 1..j - 1];
    } else {
      assert CleanTitle(reply) == reply[i..j];
    }
  }

  /** `generateChatTitle`: never throws; no key or a failed call gives "New Conversation". */
  function GenerateChatTitle(llm: Llm, message: string): (title: string)
    ensures !llm.hasKey ==> title == NewConversationTitle
    ensures llm.hasKey && llm.complete(TitleRequest(message)).None? ==> title == NewConversationTitle
    ensures llm.hasKey && llm.complete(TitleRequest(message)).Some? ==> title == CleanTitle(llm.complete(TitleRequest(message)).value)
  {
    if !llm.hasKey then NewConversationTitle
    else match llm.complete(TitleRequest(message))
      case Some(reply) => CleanTitle(reply)
      case None => NewConversationTitle
  }
}
