/** The `generate-content` edge function: it forwards a prompt to the
    chat-completion service with a system instruction chosen by the requested
    content type, strips a Markdown code fence from the reply and parses the
    rest as JSON. The completion call and `JSON.parse` are given to the model
    as their outcomes. */
module GenerateContent {
  import opened Content
  import opened Text

  const Fence: string := "```"
  const JsonFence: string := Fence + "json"

  const CompletionModel: string := "gpt-4.1-2025-04-14"

  const FlashcardInstruction: string :=
    "You are an expert educator. Generate exactly 10 flashcards from the given content. "
    + "You MUST respond with ONLY a valid JSON array of objects with \"question\" and \"answer\" fields. "
    + "Do not include any other text, explanations, or markdown formatting. Start your response with [ and end with ]."

  const QuizInstruction: string :=
    "You are an expert educator. Generate exactly 10 multiple-choice quiz questions from the given content. "
    + "You MUST respond with ONLY a valid JSON array of objects with \"question\", \"correct_answer\", "
    + "\"option_a\", \"option_b\", \"option_c\", \"option_d\" fields. "
    + "Do not include any other text, explanations, or markdown formatting. Start your response with [ and end with ]."

  /** The system message: the flashcard instruction for `type == 'flashcards'`,
      the quiz instruction for every other value. */
  function SystemPrompt(kind: string): (r: string)
    ensures r == FlashcardInstruction <==> kind == "flashcards"
    ensures r == QuizInstruction <==> kind != "flashcards"
  {
    assert |FlashcardInstruction| != |QuizInstruction|;
    if kind == "flashcards" then FlashcardInstruction else QuizInstruction
  }

  /** `s.split(open)[1].split('```')[0].trim()`: the block opened by the
      first `open`, which never contains a fence. */
  function Block(s: string, open: string): (r: string)
    requires open != [] && Contains(s, open)
    ensures !Contains(r, Fence)
  {
    var inner := Split(Split(s, open)[1], Fence)[0];
    TrimKeepsAbsence(inner, Fence);
    Trim(inner)
  }

  /** The cleaning step applied to the (already trimmed) reply before it is
      parsed: the first fenced block, preferring one tagged `json`. */
  function CleanContent(s: string): (r: string)
    ensures Contains(s, Fence) ==> !Contains(r, Fence)
    ensures !Contains(s, Fence) ==> r == s
  {
    JsonFenceIsFence(s);
    if Contains(s, JsonFence) then Block(s, JsonFence)
    else if Contains(s, Fence) then Block(s, Fence)
    else s
  }

  lemma JsonFenceIsFence(s: string)
    ensures Contains(s, JsonFence) ==> Contains(s, Fence)
  {
    if Contains(s, JsonFence) {
      ContainsPrefixOfPattern(s, Fence, "json");
    }
  }

  /** A reply with a `json`-tagged fence: the text after the first tag, cut at
      the next tagged fence (the first `split`) and then at the first closing
      fence (the second), trimmed. When no second tagged fence follows, this
      is simply the trimmed text between the tag and the next fence. */
  lemma CleanJsonFenced(s: string)
    requires Contains(s, JsonFence)
    ensures CleanContent(s) == Trim(Before(Before(After(s, JsonFence), JsonFence), Fence))
    ensures !Contains(After(s, JsonFence), JsonFence) ==>
              CleanContent(s) == Trim(Before(After(s, JsonFence), Fence))
  {
  }

  /** A reply with only untagged fences: the trimmed text between the first
      two fences, or everything after the fence when there is only one. */
  lemma CleanPlainFenced(s: string)
    requires !Contains(s, JsonFence) && Contains(s, Fence)
    ensures CleanContent(s) == Trim(Before(After(s, Fence), Fence))
    ensures !Contains(After(s, Fence), Fence) ==> CleanContent(s) == Trim(After(s, Fence))
  {
    var x := After(s, Fence);
    BeforeHasNoSeparator(x, Fence);
    assert Before(Before(x, Fence), Fence) == Before(x, Fence);
  }

  /** Cleaning a cleaned reply changes nothing. */
  lemma CleanIdempotent(s: string)
    ensures CleanContent(CleanContent(s)) == CleanContent(s)
  {
    if Contains(s, Fence) {
      JsonFenceIsFence(CleanContent(s));
    }
  }

  /** The JSON body of the request: `{ prompt, type }`. */
  datatype RequestBody = RequestBody(prompt: string, kind: string)

  /** An incoming request; `body` is what `req.json()` produced or threw. */
  datatype Request = Request(httpMethod: string, body: Result<RequestBody>)

  /** One call to the chat-completion service: model, system and user message. */
  datatype Completion = Completion(model: string, system: string, user: string)

  datatype Payload<J> = NoBody | ContentPayload(content: J) | ErrorPayload(error: string)

  datatype Response<J> = Response(status: int, payload: Payload<J>)

  /** What the handler answers, and the completion calls it made. */
  datatype Served<J> = Served(response: Response<J>, upstream: seq<Completion>)

  /** The request handler. `reply` is the outcome of the completion call up to
      `data.choices[0].message.content` (a failed fetch or a reply without that
      field is an `Err`); `parse` stands for `JSON.parse`. */
  function Serve<J>(req: Request, reply: Result<string>, parse: string -> Result<J>): (out: Served<J>)
    ensures req.httpMethod == "OPTIONS" ==> out == Served(Response(200, NoBody), [])
    ensures out.upstream != [] <==> req.httpMethod != "OPTIONS" && req.body.Ok?
    ensures out.upstream != [] ==>
              out.upstream == [Completion(CompletionModel, SystemPrompt(req.body.value.kind), req.body.value.prompt)]
    ensures req.httpMethod != "OPTIONS" ==>
              (out.response.status == 200 <==> req.body.Ok? && reply.Ok? && parse(CleanContent(Trim(reply.value))).Ok?)
    ensures out.response.status == 200 && req.httpMethod != "OPTIONS" ==>
              out.response.payload == ContentPayload(parse(CleanContent(Trim(reply.value))).value)
    ensures out.response.status != 200 ==> out.response.status == 500 && out.response.payload.ErrorPayload?
    ensures req.httpMethod != "OPTIONS" && req.body.Ok? && reply.Ok? && parse(CleanContent(Trim(reply.value))).Err? ==>
              out.response.payload.error
              == "Failed to parse generated content as JSON: " + parse(CleanContent(Trim(reply.value))).message
  {
    if req.httpMethod == "OPTIONS" then Served(Response(200, NoBody), [])
    else match req.body
      case Err(m) => Served(Response(500, ErrorPayload(m)), [])
      case Ok(body) =>
        var call := Completion(CompletionModel, SystemPrompt(body.kind), body.prompt);
        match reply
        case Err(m) => Served(Response(500, ErrorPayload(m)), [call])
        case Ok(text) =>
          match parse(CleanContent(Trim(text)))
          case Ok(parsed) => Served(Response(200, ContentPayload(parsed)), [call])
          case Err(e) =>
            Served(Response(500, ErrorPayload("Failed to parse generated content as JSON: " + e)), [call])
  }
}
