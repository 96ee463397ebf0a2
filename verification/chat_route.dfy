/**
 * The chat endpoint: it checks that `messages` is an array, gives every
 * message a role, puts the tutor's system prompt in front and returns the
 * model's reply text, or an error envelope.
 */
module ChatRoute {
  import opened Common

  /** A message as received: `role` and `sender` may be absent. */
  datatype IncomingMessage = IncomingMessage(role: Option<string>, sender: Option<string>, content: string)

  /** The `messages` field of the body. */
  datatype MessagesField = Absent | NotAnArray | AnArray(items: seq<IncomingMessage>)

  /** A message as sent to the model. */
  datatype ChatTurn = ChatTurn(role: string, content: string)

  /** What the model call did: threw, or completed with (possibly null) content. */
  datatype Completion = CompletionThrew(thrown: Thrown) | Completed(content: Option<string>)

  datatype ChatResponse =
    | Reply(message: string)
    | ErrorReply(status: int, error: string, details: Option<string>)

  /** The response and the message list sent to the model, if it was called. */
  datatype ChatOutcome = ChatOutcome(response: ChatResponse, upstream: Option<seq<ChatTurn>>)

  const InvalidMessagesError: string := "Invalid messages format"
  const UpstreamError: string := "Failed to generate response from OpenAI"
  const RequestError: string := "Failed to process chat request"
  const UnknownErrorDetails: string := "Unknown error"

  const SystemPrompt: ChatTurn := ChatTurn("system",
    "You are an AI learning assistant specialized in Math, Physics, Biology and Engineering. \n"
    + "      Your goal is to help students understand their concepts by providing clear, \n"
    + "      engaging explanations tailored to their learning level. \n"
    + "      Focus on the basic topics from each of these subjects.")

  /** A truthy `role` is kept; otherwise sender `user` means user and anything else assistant. */
  function RoleOf(m: IncomingMessage): (role: string)
    ensures role != ""
    ensures Truthy(m.role) ==> role == m.role.value
    ensures !Truthy(m.role) ==> (role == "user" <==> m.sender == Some("user"))
    ensures !Truthy(m.role) ==> (role == "assistant" <==> m.sender != Some("user"))
  {
    if Truthy(m.role) then m.role.value
    else if m.sender == Some("user") then "user" else "assistant"
  }

  /** `messages.map(...)`: one turn per message, in order. */
  function Normalize(ms: seq<IncomingMessage>): (turns: seq<ChatTurn>)
    ensures |turns| == |ms|
    ensures forall i :: 0 <= i < |ms| ==> turns[i] == ChatTurn(RoleOf(ms[i]), ms[i].content)
  {
    seq(|ms|, i requires 0 <= i < |ms| => ChatTurn(RoleOf(ms[i]), ms[i].content))
  }

  function DetailsOf(t: Thrown): string
  {
    match t
    case ErrorObject(m) => m
    case NonError => UnknownErrorDetails
  }

  /**
   * `POST`: `body` is an `Err` holding what reading the JSON body threw;
   * the model's completion is a parameter.
   */
  function ChatPost(body: Result<MessagesField, Thrown>, completion: Completion): (o: ChatOutcome)
    ensures body.Err? ==> o == ChatOutcome(ErrorReply(500, RequestError, Some(DetailsOf(body.error))), None)
    ensures body.Ok? && !body.value.AnArray? ==>
              o == ChatOutcome(ErrorReply(400, InvalidMessagesError, None), None)
    ensures body.Ok? && body.value.AnArray? ==>
              o.upstream == Some([SystemPrompt] + Normalize(body.value.items))
    ensures body.Ok? && body.value.AnArray? && completion.Completed? ==>
              o.response == Reply(if completion.content.Some? then completion.content.value else "")
    ensures body.Ok? && body.value.AnArray? && completion.CompletionThrew? ==>
              o.response == ErrorReply(500, UpstreamError, Some(DetailsOf(completion.thrown)))
    ensures o.response.Reply? ==>
              completion.Completed? && o.response.message == (if completion.content.Some? then completion.content.value else "")
  {
    match body
    case Err(t) => ChatOutcome(ErrorReply(500, RequestError, Some(DetailsOf(t))), None)
    case Ok(field) =>
      match field
      case AnArray(items) =>
        var upstream := [SystemPrompt] + Normalize(items);
        var response :=
          match completion
          case CompletionThrew(t) => ErrorReply(500, UpstreamError, Some(DetailsOf(t)))
          case Completed(content) => Reply(if content.Some? then content.value else "");
        ChatOutcome(response, Some(upstream))
      case _ => ChatOutcome(ErrorReply(400, InvalidMessagesError, None), None)
  }

  /** A turn read back as an incoming message. */
  function AsIncoming(t: ChatTurn): IncomingMessage
  {
    IncomingMessage(Some(t.role), None, t.content)
  }

  /** Normalising already normalised messages changes nothing. */
  lemma NormalizeIdempotent(ms: seq<IncomingMessage>)
    ensures var turns := Normalize(ms);
      Normalize(seq(|turns|, i requires 0 <= i < |turns| => AsIncoming(turns[i]))) == turns
  {
  }

  /** Roles only ever come out as the given role, `user` or `assistant`. */
  lemma NormalizedRoles(ms: seq<IncomingMessage>, i: nat)
    requires i < |ms|
    ensures var r := Normalize(ms)[i].role;
      r == "user" || r == "assistant" || (Truthy(ms[i].role) && r == ms[i].role.value)
  {
  }
}
