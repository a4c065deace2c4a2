/** The Gemini proxy (a Netlify function): a ladder of guard returns, a per-task prompt
    and response schema, and the mapping of the upstream reply. The upstream `fetch` is
    not modelled: its outcome arrives as an `Upstream` value. */
module GeminiProxy {
  import opened Wrappers
  import opened ProxyTypes

  const MissingKey := "GEMINI_API_KEY is not set in Netlify environment variables."
  const Endpoint := "https://generativelanguage.googleapis.com/v1beta/models/gemini-2.5-flash:generateContent?key="

  /** The subset of Gemini's response-schema language the proxy uses. */
  datatype SchemaType = StringType | ArrayType(items: SchemaType)
  datatype Schema = ObjectSchema(properties: seq<(string, SchemaType)>, required: seq<string>)

  /** `jsonSchema[task]`. */
  function ResponseSchema(t: Task): Schema
  {
    match t
    case Generate =>
      ObjectSchema([("subjectVariations", ArrayType(StringType)), ("body", StringType)], ["subjectVariations", "body"])
    case Refine => ObjectSchema([("body", StringType)], ["body"])
    case SmartReply => ObjectSchema([("body", StringType)], ["body"])
  }

  /** The type a schema declares for a property, if it declares one. */
  function PropertyType(s: Schema, name: string): Option<SchemaType>
  {
    PropertyTypeIn(s.properties, name)
  }

  function PropertyTypeIn(ps: seq<(string, SchemaType)>, name: string): Option<SchemaType>
    decreases |ps|
  {
    if ps == [] then None else if ps[0].0 == name then Some(ps[0].1) else PropertyTypeIn(ps[1..], name)
  }

  function SystemInstruction(t: Task): string
  {
    match t
    case Generate => "You are an AI assistant for a professional email composition app. Your task is to generate a professional email based on a user's prompt. Your response MUST be a single, valid JSON object that adheres to the provided schema. The 'subjectVariations' key must contain an array of 3 to 5 concise and professional subject line variations. The 'body' key must contain the full body of the email, written in a professional and clear tone, using HTML paragraphs (<p>...</p>) for line breaks. Do not include any other text or explanation outside of the JSON object."
    case Refine => "You are an AI assistant that refines email content. Rewrite the provided email body based on the user's instruction. Keep the core message intact. Your response MUST be a single, valid JSON object that adheres to the provided schema. Do not include any other text, explanation, or markdown formatting outside of the JSON object."
    case SmartReply => "You are an AI assistant that generates smart replies to emails. Read the original email and generate a professional and helpful reply. Your response MUST be a single, valid JSON object that adheres to the provided schema. The 'body' key must contain the full body of the reply email, written in a professional and clear tone, using HTML paragraphs (<p>...</p>) for line breaks. Do not include any other text or explanation outside of the JSON object."
  }

  /** The user prompt each task builds from the request's `prompt`. */
  function UserPrompt(t: Task, prompt: JsValue): string
    requires Truthy(prompt)
  {
    match t
    case Generate => "PROMPT: \"" + Interpolate(prompt) + "\""
    case Refine =>
      "INSTRUCTION: \"" + Interpolate(Get(prompt, "instruction")) + "\"\n\nORIGINAL BODY: \"" + Interpolate(Get(prompt, "body")) + "\""
    case SmartReply =>
      "ORIGINAL EMAIL SUBJECT: \"" + Interpolate(Get(prompt, "subject")) + "\"\n\nORIGINAL EMAIL BODY: \"" + Interpolate(Get(prompt, "body")) + "\""
  }

  /** The generateContent call the proxy makes. */
  datatype UpstreamRequest = UpstreamRequest(
    url: string,
    userPrompt: string,
    systemInstruction: string,
    responseMimeType: string,
    responseSchema: Schema)

  /** How the upstream call ends:
      - `Replied`: an OK response; `text` is `candidates?.[0]?.content?.parts?.[0]?.text`;
      - `HttpError`: a non-OK status; `errorMessage` is `errorBody.error?.message`;
      - `Threw`: `fetch` or the JSON read threw, with the error's message. */
  datatype Upstream =
    | Replied(text: Option<string>)
    | HttpError(status: int, errorMessage: Option<string>)
    | Threw(message: string)

  /** Either the handler has already returned, or it calls upstream with this request. */
  datatype Step = Respond(response: Response) | CallUpstream(request: UpstreamRequest)

  /** The handler up to the upstream call: the guard ladder and the task switch. It calls
      upstream exactly for a POST with a key, a parsed body, a truthy prompt and a known task. */
  function Prepare(event: Event, apiKey: string): (r: Step)
    ensures r.CallUpstream? <==>
      event.httpMethod == "POST" && apiKey != "" && event.body.Parsed? &&
      Truthy(event.body.payload.prompt) && TaskOf(event.body.payload.task).Some?
  {
    if event.httpMethod != "POST" then Respond(MethodNotAllowed)
    else if apiKey == "" then Respond(Response(500, ErrorJson(MissingKey)))
    else
      match event.body
      case Unparseable(message) => Respond(Response(500, ErrorJson(message)))
      case Parsed(p) =>
        if !Truthy(p.prompt) || !Truthy(p.task) then Respond(Response(400, ErrorJson(MissingFields)))
        else
          match TaskOf(p.task)
          case None => Respond(Response(400, ErrorJson(InvalidTask)))
          case Some(t) =>
            CallUpstream(UpstreamRequest(Endpoint + apiKey, UserPrompt(t, p.prompt), SystemInstruction(t),
                                         "application/json", ResponseSchema(t)))
  }

  /** The request an accepted event sends upstream. */
  lemma PrepareCall(event: Event, apiKey: string)
    requires event.httpMethod == "POST" && apiKey != "" && event.body.Parsed?
    requires Truthy(event.body.payload.prompt) && TaskOf(event.body.payload.task).Some?
    ensures var t := TaskOf(event.body.payload.task).value;
      Prepare(event, apiKey) == CallUpstream(UpstreamRequest(Endpoint + apiKey, UserPrompt(t, event.body.payload.prompt),
                                                             SystemInstruction(t), "application/json", ResponseSchema(t)))
  {
    var p := event.body.payload;
    assert Truthy(p.task);
  }

  /** The smart-reply prompt quotes the request's subject and body. */
  lemma SmartReplyPrompt(prompt: JsValue, subject: string, body: string)
    requires Truthy(prompt) && Get(prompt, "subject") == Str(subject) && Get(prompt, "body") == Str(body)
    ensures UserPrompt(SmartReply, prompt) ==
      "ORIGINAL EMAIL SUBJECT: \"" + subject + "\"\n\nORIGINAL EMAIL BODY: \"" + body + "\""
  {
  }

  /** The handler after the upstream call. */
  function Complete(reply: Upstream): Response
  {
    match reply
    case Replied(text) => Response(200, ModelJson(TextOrEmptyJson(text)))
    case HttpError(status, message) =>
      Response(status, ErrorJson("Gemini API error: " + (if message.Some? && message.value != "" then message.value else "Unknown error")))
    case Threw(message) => Response(500, ErrorJson(message))
  }

  /** `exports.handler`, with the upstream outcome as an input. */
  function Handler(event: Event, apiKey: string, reply: Upstream): Response
  {
    match Prepare(event, apiKey)
    case Respond(r) => r
    case CallUpstream(_) => Complete(reply)
  }

  /** A request that is not a POST gets 405 whatever else it carries. */
  lemma NonPostRejected(event: Event, apiKey: string, reply: Upstream)
    requires event.httpMethod != "POST"
    ensures Handler(event, apiKey, reply) == MethodNotAllowed
  {
  }

  /** A POST without a key gets 500 before the body is looked at. */
  lemma MissingKeyRejected(event: Event, reply: Upstream)
    requires event.httpMethod == "POST"
    ensures Handler(event, "", reply) == Response(500, ErrorJson(MissingKey))
  {
  }

  /** A missing prompt or task gets 400 and no upstream call; an unreadable body gets 500
      with the parse error's message. */
  lemma BodyChecks(event: Event, apiKey: string, reply: Upstream)
    requires event.httpMethod == "POST" && apiKey != ""
    ensures event.body.Unparseable? ==> Handler(event, apiKey, reply) == Response(500, ErrorJson(event.body.message))
    ensures event.body.Parsed? && (!Truthy(event.body.payload.prompt) || !Truthy(event.body.payload.task)) ==>
      Prepare(event, apiKey) == Respond(Response(400, ErrorJson(MissingFields)))
  {
  }

  /** A truthy task other than the three known ones gets 400 and no upstream call. */
  lemma UnknownTaskRejected(event: Event, apiKey: string)
    requires event.httpMethod == "POST" && apiKey != "" && event.body.Parsed?
    requires Truthy(event.body.payload.prompt) && Truthy(event.body.payload.task)
    requires event.body.payload.task !in {Str("generate"), Str("refine"), Str("smart-reply")}
    ensures Prepare(event, apiKey) == Respond(Response(400, ErrorJson(InvalidTask)))
  {
    assert TaskOf(event.body.payload.task).None?;
  }

  /** Every schema requires a string `body`; only `generate` also requires
      `subjectVariations`, an array of strings. Every required field is declared. */
  lemma SchemaByTask(t: Task)
    ensures "body" in ResponseSchema(t).required && PropertyType(ResponseSchema(t), "body") == Some(StringType)
    ensures "subjectVariations" in ResponseSchema(t).required <==> t == Generate
    ensures t == Generate ==> PropertyType(ResponseSchema(t), "subjectVariations") == Some(ArrayType(StringType))
    ensures forall n | n in ResponseSchema(t).required :: PropertyType(ResponseSchema(t), n).Some?
  {
  }

  /** A non-OK upstream status is passed through with a prefixed message; an OK reply is
      returned with status 200 and the model's text, or "{}" when there is none; a call
      that throws gives 500 with the error's message. */
  lemma UpstreamMapping(status: int, message: Option<string>, text: Option<string>, thrown: string)
    ensures Complete(HttpError(status, message)).statusCode == status
    ensures message.Some? && message.value != "" ==>
      Complete(HttpError(status, message)).body == ErrorJson("Gemini API error: " + message.value)
    ensures (message.None? || message.value == "") ==>
      Complete(HttpError(status, message)).body == ErrorJson("Gemini API error: Unknown error")
    ensures Complete(Replied(text)) == Response(200, ModelJson(if text.Some? && text.value != "" then text.value else "{}"))
    ensures Complete(Threw(thrown)) == Response(500, ErrorJson(thrown))
  {
  }
}
