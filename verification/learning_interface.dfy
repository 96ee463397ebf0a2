/**
 * The learning page's chat: sending a non-blank input appends the user's
 * message, posts the whole conversation to the chat endpoint, and appends
 * exactly one tutor message: the reply, a fallback text, or an error text.
 */
module LearningInterface {
  import opened Common
  import ChatRoute

  datatype Sender = User | Ai

  /** A chat message; `timestamp` comes from the clock and is a parameter here. */
  datatype Message = Message(id: int, sender: Sender, content: string, timestamp: string, role: Option<string>)

  datatype ChatState = ChatState(messages: seq<Message>, inputValue: string)

  /** The fields of the chat endpoint's JSON reply the page reads. */
  datatype ReplyData = ReplyData(message: Option<string>, error: Option<string>, details: Option<string>)

  /** The request's fate: a parsed JSON reply, or what `fetch`/`json()` threw. */
  datatype FetchResult = Answered(data: ReplyData) | FetchThrew(thrown: Thrown)

  /** The conversation after sending, and the message list posted (if any). */
  datatype SendOutcome = SendOutcome(state: ChatState, request: Option<seq<Message>>)

  const Greeting: string :=
    "Hello! I'm your AI learning assistant. I'm here to help you understand the concepts of your chosen subject. What would you like to learn about today?"
  const FallbackReply: string := "Sorry, I couldn't generate a response."
  const TroublePrefix: string := "Sorry, I'm having trouble responding: "
  const TroubleGeneric: string := "Sorry, I'm having trouble responding right now. Please try again."

  function InitialState(greetingTime: string): ChatState
  {
    ChatState([Message(1, Ai, Greeting, greetingTime, Some("assistant"))], "")
  }

  /** The characters `String.prototype.trim` removes: white space and line terminators. */
  predicate IsJsWhitespace(c: char)
  {
    c == '\t' || c == '\n' || c == '\U{000B}' || c == '\U{000C}' || c == '\r' || c == ' '
    || c == '\U{00A0}' || c == '\U{1680}' || ('\U{2000}' <= c <= '\U{200A}')
    || c == '\U{2028}' || c == '\U{2029}' || c == '\U{202F}' || c == '\U{205F}'
    || c == '\U{3000}' || c == '\U{FEFF}'
  }

  predicate IsBlank(s: string)
  {
    forall i :: 0 <= i < |s| ==> IsJsWhitespace(s[i])
  }

  function TrimStart(s: string): (r: string)
    ensures |r| <= |s|
    ensures r == s[|s| - |r|..]
    ensures forall i :: 0 <= i < |s| - |r| ==> IsJsWhitespace(s[i])
  {
    if |s| > 0 && IsJsWhitespace(s[0]) then TrimStart(s[1..]) else s
  }

  function TrimEnd(s: string): (r: string)
    ensures |r| <= |s|
    ensures r == s[..|r|]
  {
    if |s| > 0 && IsJsWhitespace(s[|s| - 1]) then TrimEnd(s[..|s| - 1]) else s
  }

  function Trim(s: string): string
  {
    TrimEnd(TrimStart(s))
  }

  lemma {:induction false} TrimEndEmptyIffBlank(s: string)
    ensures TrimEnd(s) == [] <==> IsBlank(s)
  {
    if |s| > 0 && IsJsWhitespace(s[|s| - 1]) {
      TrimEndEmptyIffBlank(s[..|s| - 1]);
      assert IsBlank(s) <==> IsBlank(s[..|s| - 1]) by {
        assert forall i :: 0 <= i < |s| - 1 ==> s[i] == s[..|s| - 1][i];
      }
    }
  }

  /** `!inputValue.trim()` holds exactly for inputs made only of white space. */
  lemma TrimEmptyIffBlank(s: string)
    ensures Trim(s) == "" <==> IsBlank(s)
  {
    var t := TrimStart(s);
    TrimEndEmptyIffBlank(t);
    var k := |s| - |t|;
    if IsBlank(t) {
      forall i | 0 <= i < |s| ensures IsJsWhitespace(s[i]) {
        if i >= k {
          assert s[i] == t[i - k];
        }
      }
    }
    if IsBlank(s) {
      forall i | 0 <= i < |t| ensures IsJsWhitespace(t[i]) {
        assert t[i] == s[k + i];
      }
    }
  }

  /** The text of the tutor message appended after the request. */
  function ReplyText(r: FetchResult): string
  {
    match r
    case FetchThrew(ErrorObject(m)) => TroublePrefix + m
    case FetchThrew(NonError) => TroubleGeneric
    case Answered(data) =>
      if Truthy(data.error) then
        TroublePrefix + data.error.value + (if Truthy(data.details) then ": " + data.details.value else "")
      else if Truthy(data.message) then data.message.value
      else FallbackReply
  }

  /** `handleSendMessage`: clock readings and the endpoint's answer are parameters. */
  function SendMessage(s: ChatState, reply: FetchResult, userTime: string, aiTime: string): (o: SendOutcome)
    ensures IsBlank(s.inputValue) ==> o == SendOutcome(s, None)
    ensures !IsBlank(s.inputValue) ==>
      var n := |s.messages|;
      var user := Message(n + 1, User, s.inputValue, userTime, Some("user"));
      && o.request == Some(s.messages + [user])
      && o.state.inputValue == ""
      && |o.state.messages| == n + 2
      && o.state.messages[..n + 1] == s.messages + [user]
      && o.state.messages[n + 1] == Message(n + 2, Ai, ReplyText(reply), aiTime, Some("assistant"))
  {
    TrimEmptyIffBlank(s.inputValue);
    if Trim(s.inputValue) == "" then SendOutcome(s, None)
    else
      var user := Message(|s.messages| + 1, User, s.inputValue, userTime, Some("user"));
      var request := s.messages + [user];
      var aiMessage := Message(|s.messages| + 2, Ai, ReplyText(reply), aiTime, Some("assistant"));
      SendOutcome(ChatState(request + [aiMessage], ""), Some(request))
  }

  /**
   * The tutor's text: the endpoint's message when there is one, the
   * fallback when it is missing or empty, and otherwise an apology naming
   * the error and its details.
   */
  lemma ReplyTextCases(r: FetchResult)
    ensures r.Answered? && !Truthy(r.data.error) ==>
      ReplyText(r) == (if Truthy(r.data.message) then r.data.message.value else FallbackReply)
    ensures r.Answered? && Truthy(r.data.error) ==>
      Contains(ReplyText(r), r.data.error.value)
      && (Truthy(r.data.details) ==> Contains(ReplyText(r), r.data.details.value))
    ensures r.FetchThrew? && r.thrown.ErrorObject? ==> Contains(ReplyText(r), r.thrown.message)
  {
    match r
    case Answered(data) =>
      if Truthy(data.error) {
        var e := data.error.value;
        var tail := if Truthy(data.details) then ": " + data.details.value else "";
        assert ReplyText(r) == TroublePrefix + e + tail;
        ContainsPart(TroublePrefix, e, tail);
        if Truthy(data.details) {
          assert ReplyText(r) == (TroublePrefix + e + ": ") + data.details.value + "";
          ContainsPart(TroublePrefix + e + ": ", data.details.value, "");
        }
      }
    case FetchThrew(t) =>
      if t.ErrorObject? {
        assert ReplyText(r) == TroublePrefix + t.message + "";
        ContainsPart(TroublePrefix, t.message, "");
      }
  }

  /** Message ids are `1..n` in order. */
  predicate IdsSequential(ms: seq<Message>)
  {
    forall i :: 0 <= i < |ms| ==> ms[i].id == i + 1
  }

  /** Every message's role matches its sender. */
  predicate RolesMatchSenders(ms: seq<Message>)
  {
    forall i :: 0 <= i < |ms| ==> ms[i].role == Some(if ms[i].sender == User then "user" else "assistant")
  }

  /**
   * Sequential ids and sender-matching roles hold from the greeting on and
   * survive every send, so ids never repeat within one conversation.
   */
  lemma SendKeepsInvariants(s: ChatState, reply: FetchResult, userTime: string, aiTime: string)
    requires IdsSequential(s.messages) && RolesMatchSenders(s.messages)
    ensures var o := SendMessage(s, reply, userTime, aiTime);
      IdsSequential(o.state.messages) && RolesMatchSenders(o.state.messages)
      && (o.request.Some? ==> IdsSequential(o.request.value) && RolesMatchSenders(o.request.value))
  {
    var o := SendMessage(s, reply, userTime, aiTime);
    if !IsBlank(s.inputValue) {
      var n := |s.messages|;
      var user := Message(n + 1, User, s.inputValue, userTime, Some("user"));
      var ai := Message(n + 2, Ai, ReplyText(reply), aiTime, Some("assistant"));
      var request := s.messages + [user];
      AppendKeepsInvariants(s.messages, user);
      AppendKeepsInvariants(request, ai);
      assert o.state.messages == request + [ai] by {
        assert o.state.messages == o.state.messages[..n + 1] + [o.state.messages[n + 1]];
      }
    }
  }

  /** Appending the next-numbered message with its sender's role keeps both invariants. */
  lemma AppendKeepsInvariants(ms: seq<Message>, m: Message)
    requires IdsSequential(ms) && RolesMatchSenders(ms)
    requires m.id == |ms| + 1 && m.role == Some(if m.sender == User then "user" else "assistant")
    ensures IdsSequential(ms + [m]) && RolesMatchSenders(ms + [m])
  {
    var t := ms + [m];
    forall i | 0 <= i < |t|
      ensures t[i].id == i + 1 && t[i].role == Some(if t[i].sender == User then "user" else "assistant")
    {
      if i < |ms| { assert t[i] == ms[i]; }
    }
  }

  lemma InitialStateSatisfiesInvariants(t: string)
    ensures IdsSequential(InitialState(t).messages) && RolesMatchSenders(InitialState(t).messages)
  {
  }

  /** A message as the chat endpoint receives it. */
  function AsIncoming(m: Message): ChatRoute.IncomingMessage
  {
    ChatRoute.IncomingMessage(m.role, Some(if m.sender == User then "user" else "ai"), m.content)
  }

  /**
   * What the page posts reaches the model with the same contents, in the
   * same order, each with the role its sender implies.
   */
  lemma PostedConversationKeepsRoles(ms: seq<Message>)
    requires RolesMatchSenders(ms)
    ensures var turns := ChatRoute.Normalize(seq(|ms|, i requires 0 <= i < |ms| => AsIncoming(ms[i])));
      |turns| == |ms|
      && forall i :: 0 <= i < |ms| ==>
           turns[i] == ChatRoute.ChatTurn(if ms[i].sender == User then "user" else "assistant", ms[i].content)
  {
  }
}
