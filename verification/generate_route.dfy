/**
 * The roadmap-generation endpoint: it checks the three required fields,
 * builds the prompt (adding the learning-method and interests sentences
 * only when those fields are given), sends it to the language model and
 * returns the parsed roadmap, or an error envelope.
 */
module GenerateRoute {
  import opened Common

  /** The fields the endpoint reads from the JSON body; each may be absent. */
  datatype GenerateBody = GenerateBody(
    subject: Option<string>,
    level: Option<string>,
    ageGroup: Option<string>,
    learningMethod: Option<string>,
    interests: Option<string>)

  /** The request body as read: its fields, or what reading it threw. */
  datatype RequestBody = Parsed(body: GenerateBody) | Unreadable(thrown: Thrown)

  /** What the model call did: threw, or replied with (possibly null) content. */
  datatype LlmReply = LlmThrew(thrown: Thrown) | LlmReplied(content: Option<string>)

  /** The HTTP response: `{ roadmap }` with status 200, or `{ error }` with a status. */
  datatype GenerateResponse<T> = Generated(roadmap: T) | Failed(status: int, error: string)

  /** The response, and the prompt lines sent to the model if it was called. */
  datatype GenerateOutcome<T> = GenerateOutcome(response: GenerateResponse<T>, prompt: Option<seq<string>>)

  const MissingFieldsError: string := "Missing required fields"
  const GenerateFallbackError: string := "Failed to generate roadmap"
  const Indent: string := "      "

  /** The fixed middle of the prompt: what the roadmap must contain, and its JSON shape. */
  const FormatInstructions: seq<string> := [
    Indent + "The roadmap should include:",
    Indent + "1. A course title",
    Indent + "2. 4-6 main modules/chapters",
    Indent + "3. 3-5 lessons per module",
    "",
    Indent + "Format the response as a JSON object with the following structure:",
    Indent + "{",
    Indent + "  \"courseName\": \"Title of the Course\",",
    Indent + "  \"modules\": [",
    Indent + "    {",
    Indent + "      \"id\": 1,",
    Indent + "      \"title\": \"Module Title\",",
    Indent + "      \"description\": \"Brief description of this module\",",
    Indent + "      \"lessons\": [",
    Indent + "        {",
    Indent + "          \"id\": 1,",
    Indent + "          \"title\": \"Lesson Title\",",
    Indent + "          \"description\": \"Brief description of this lesson\",",
    Indent + "          \"topics\": [\"Topic 1\", \"Topic 2\", \"Topic 3\"]",
    Indent + "        }",
    Indent + "      ]",
    Indent + "    }",
    Indent + "  ]",
    Indent + "}"]

  const ClosingInstruction: string :=
    Indent + "Make sure the content is educational, age-appropriate, and follows a logical progression from basic to more advanced concepts."

  /** The value of a truthy optional string, or the empty string. */
  function TextOf(s: Option<string>): string
  {
    if s.Some? then s.value else ""
  }

  function LearningMethodSentence(learningMethod: string): string
  {
    "The preferred learning method is: " + learningMethod + "."
  }

  function InterestsSentence(interests: string): string
  {
    "The learner is interested in: " + interests + "."
  }

  function LearningMethodInstruction(learningMethod: string): string
  {
    "Incorporate the " + learningMethod + " learning method into the lessons where appropriate."
  }

  function InterestsInstruction(interests: string): string
  {
    "Try to incorporate elements related to " + interests + " where relevant to make the content more engaging."
  }

  /** A conditional template slot: the text when the field is truthy, else nothing. */
  function Slot(field: Option<string>, text: string): string
  {
    if Truthy(field) then text else ""
  }

  /** The fixed pieces of the prompt's first line, around the three required fields. */
  const HeadPrefix: string := Indent + "Create a detailed learning roadmap for "
  const HeadAt: string := " at a "
  const HeadLevelFor: string := " level for "

  function HeadLine(b: GenerateBody): string
  {
    HeadPrefix + TextOf(b.subject) + HeadAt + TextOf(b.level) + HeadLevelFor + TextOf(b.ageGroup) + "."
  }

  /** The prompt's opening lines: the request and the optional preferences. */
  function OpeningLines(b: GenerateBody): seq<string>
  {
    ["", HeadLine(b), Indent,
     Indent + Slot(b.learningMethod, LearningMethodSentence(TextOf(b.learningMethod))),
     Indent + Slot(b.interests, InterestsSentence(TextOf(b.interests))),
     ""]
  }

  /** The prompt's closing lines: the general and the optional instructions. */
  function ClosingLines(b: GenerateBody): seq<string>
  {
    ["", ClosingInstruction,
     Indent + Slot(b.learningMethod, LearningMethodInstruction(TextOf(b.learningMethod))),
     Indent + Slot(b.interests, InterestsInstruction(TextOf(b.interests))),
     "    "]
  }

  /** The prompt, line by line (the template literal split at its line breaks). */
  function PromptLines(b: GenerateBody): seq<string>
  {
    OpeningLines(b) + FormatInstructions + ClosingLines(b)
  }

  /** Line numbers of the four conditional lines. */
  const MethodLine: nat := 3
  const InterestsLine: nat := 4
  const MethodInstructionLine: nat := 32
  const InterestsInstructionLine: nat := 33

  /** The message of a caught value, or the endpoint's fallback text. */
  function ErrorMessage(t: Thrown): string
  {
    match t
    case ErrorObject(m) => m
    case NonError => GenerateFallbackError
  }

  /** The three required fields are all present and non-empty. */
  predicate HasRequiredFields(b: GenerateBody)
  {
    Truthy(b.subject) && Truthy(b.level) && Truthy(b.ageGroup)
  }

  /**
   * `POST`: the model's reply and `JSON.parse` are parameters; null or
   * empty content is parsed as `"{}"`.
   */
  function GeneratePost<T>(request: RequestBody, llm: LlmReply, parse: string -> Result<T, Thrown>)
    : (o: GenerateOutcome<T>)
    ensures request.Unreadable? ==> o == GenerateOutcome(Failed(500, ErrorMessage(request.thrown)), None)
    ensures request.Parsed? && !HasRequiredFields(request.body) ==>
              o == GenerateOutcome(Failed(400, MissingFieldsError), None)
    ensures request.Parsed? && HasRequiredFields(request.body) ==>
              o == GenerateOutcome(ReplyResponse(llm, parse), Some(PromptLines(request.body)))
    ensures request.Parsed? && HasRequiredFields(request.body) && llm.LlmReplied? ==>
              var parsed := parse(if Truthy(llm.content) then llm.content.value else "{}");
              parsed.Ok? ==> o.response == Generated(parsed.value)
    ensures o.response.Failed? ==> o.response.status == 400 || o.response.status == 500
    ensures o.response.Generated? ==>
              request.Parsed? && HasRequiredFields(request.body) && llm.LlmReplied?
              && parse(if Truthy(llm.content) then llm.content.value else "{}") == Ok(o.response.roadmap)
  {
    match request
    case Unreadable(t) => GenerateOutcome(Failed(500, ErrorMessage(t)), None)
    case Parsed(b) =>
      if !Truthy(b.subject) || !Truthy(b.level) || !Truthy(b.ageGroup) then
        GenerateOutcome(Failed(400, MissingFieldsError), None)
      else
        GenerateOutcome(ReplyResponse(llm, parse), Some(PromptLines(b)))
  }

  /** The response once the prompt was sent: the parsed reply, or a 500 with the caught message. */
  function ReplyResponse<T>(llm: LlmReply, parse: string -> Result<T, Thrown>): (r: GenerateResponse<T>)
    ensures r.Failed? ==> r.status == 500
    ensures llm.LlmThrew? ==> r == Failed(500, ErrorMessage(llm.thrown))
    ensures llm.LlmReplied? ==>
      var parsed := parse(if Truthy(llm.content) then llm.content.value else "{}");
      parsed.Err? ==> r == Failed(500, ErrorMessage(parsed.error))
    ensures r.Generated? <==>
      llm.LlmReplied? && parse(if Truthy(llm.content) then llm.content.value else "{}").Ok?
    ensures r.Generated? ==> parse(if Truthy(llm.content) then llm.content.value else "{}") == Ok(r.roadmap)
  {
    match llm
    case LlmThrew(t) => Failed(500, ErrorMessage(t))
    case LlmReplied(content) =>
      match parse(if Truthy(content) then content.value else "{}")
      case Ok(roadmap) => Generated(roadmap)
      case Err(t) => Failed(500, ErrorMessage(t))
  }

  lemma FormatInstructionsLength()
    ensures |FormatInstructions| == 24
  {
  }

  /** Where the opening and closing lines sit in the prompt. */
  lemma PromptParts(b: GenerateBody)
    ensures |PromptLines(b)| == 35
    ensures forall k :: 0 <= k < 6 ==> PromptLines(b)[k] == OpeningLines(b)[k]
    ensures PromptLines(b)[1] == HeadLine(b)
    ensures forall k :: 0 <= k < 5 ==> PromptLines(b)[30 + k] == ClosingLines(b)[k]
  {
    FormatInstructionsLength();
  }

  /** The prompt's first line names the subject, the level and the age group. */
  lemma PromptHeadNamesFields(b: GenerateBody)
    ensures Contains(HeadLine(b), TextOf(b.subject))
    ensures Contains(HeadLine(b), TextOf(b.level))
    ensures Contains(HeadLine(b), TextOf(b.ageGroup))
  {
    FilledTemplateContains(HeadPrefix, TextOf(b.subject), HeadAt, TextOf(b.level), HeadLevelFor, TextOf(b.ageGroup), ".");
  }

  /** Each value filled into a three-slot template occurs in the result. */
  lemma FilledTemplateContains(p1: string, x: string, p2: string, y: string, p3: string, z: string, p4: string)
    ensures var t := p1 + x + p2 + y + p3 + z + p4;
      Contains(t, x) && Contains(t, y) && Contains(t, z)
  {
    var t := p1 + x + p2 + y + p3 + z + p4;
    assert t == p1 + x + (p2 + y + p3 + z + p4);
    ContainsPart(p1, x, p2 + y + p3 + z + p4);
    assert t == (p1 + x + p2) + y + (p3 + z + p4);
    ContainsPart(p1 + x + p2, y, p3 + z + p4);
    ContainsPart(p1 + x + p2 + y + p3, z, p4);
  }

  /**
   * Each conditional line holds its sentence exactly when its field is
   * truthy, and is bare indentation otherwise.
   */
  lemma PromptConditionalLines(b: GenerateBody)
    ensures |PromptLines(b)| == 35
    ensures PromptLines(b)[MethodLine] != Indent <==> Truthy(b.learningMethod)
    ensures PromptLines(b)[MethodInstructionLine] != Indent <==> Truthy(b.learningMethod)
    ensures PromptLines(b)[InterestsLine] != Indent <==> Truthy(b.interests)
    ensures PromptLines(b)[InterestsInstructionLine] != Indent <==> Truthy(b.interests)
    ensures Truthy(b.learningMethod) ==>
      && PromptLines(b)[MethodLine] == Indent + LearningMethodSentence(b.learningMethod.value)
      && PromptLines(b)[MethodInstructionLine] == Indent + LearningMethodInstruction(b.learningMethod.value)
    ensures Truthy(b.interests) ==>
      && PromptLines(b)[InterestsLine] == Indent + InterestsSentence(b.interests.value)
      && PromptLines(b)[InterestsInstructionLine] == Indent + InterestsInstruction(b.interests.value)
  {
    PromptParts(b);
    NonEmptySlot(b.learningMethod, LearningMethodSentence(TextOf(b.learningMethod)));
    NonEmptySlot(b.learningMethod, LearningMethodInstruction(TextOf(b.learningMethod)));
    NonEmptySlot(b.interests, InterestsSentence(TextOf(b.interests)));
    NonEmptySlot(b.interests, InterestsInstruction(TextOf(b.interests)));
  }

  lemma NonEmptySlot(field: Option<string>, text: string)
    requires |text| > 0
    ensures Indent + Slot(field, text) != Indent <==> Truthy(field)
  {
    if Truthy(field) {
      assert |Indent + Slot(field, text)| > |Indent|;
    } else {
      assert Indent + Slot(field, text) == Indent + "";
    }
  }
}
