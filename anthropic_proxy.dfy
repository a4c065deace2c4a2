/** The Anthropic proxy (a Netlify function): the same guard ladder and task switch as the
    Gemini proxy, with a different upstream request and error mapping. The upstream `fetch`
    is not modelled: its outcome arrives as an `Upstream` value. */
module AnthropicProxy {
  import opened Wrappers
  import opened ProxyTypes
  import GeminiProxy

  const MissingKey := "ANTHROPIC_API_KEY is not set in Netlify environment variables."
  const ApiVersion := "2023-06-01"
  const Model := "claude-3-haiku-20240307"
  const MaxTokens := 2048

  function SystemPrompt(t: Task): string
  {
    match t
    case Generate => "You are an AI assistant for a professional email composition app. Your task is to generate a professional email based on a user's prompt.\nYour response MUST be a single, valid JSON object with the following structure:\n{\n  \"subjectVariations\": [\"<subject 1>\", \"<subject 2>\", \"<subject 3>\"],\n  \"body\": \"<HTML content for the email body>\"\n}\nThe 'subjectVariations' key must contain an array of 3 to 5 concise and professional subject line variations.\nThe 'body' key must contain the full body of the email, written in a professional and clear tone, using HTML paragraphs (<p>...</p>) for line breaks. Do not include any other text or explanation outside of the JSON object."
    case Refine => "You are an AI assistant that refines email content. Rewrite the provided email body based on the user's instruction. Keep the core message intact.\nYour response MUST be a single, valid JSON object with the following structure:\n{\n  \"body\": \"<HTML content for the rewritten email body>\"\n}\nDo not include any other text, explanation, or markdown formatting outside of the JSON object."
    case SmartReply => "You are an AI assistant that generates smart replies to emails. Read the original email and generate a professional and helpful reply.\nYour response MUST be a single, valid JSON object with the following structure:\n{\n  \"body\": \"<HTML content for the reply email body>\"\n}\nThe 'body' key must contain the full body of the reply email, written in a professional and clear tone, using HTML paragraphs (<p>...</p>) for line breaks. Do not include any other text or explanation outside of the JSON object."
  }

  /** The user prompt each task builds from the request's `prompt`. */
  function UserPrompt(t: Task, prompt: JsValue): string
    requires Truthy(prompt)
  {
    match t
    case Generate => "PROMPT: \"" + Interpolate(prompt) + "\""
    case Refine =>
      "INSTRUCTION: \"" + Interpolate(Get(prompt, "instruction")) + "\"\n\nORIGINAL BODY: \"" + Interpolate(Get(prompt, "body")) + "\""
    case SmartReply =>
      "ORIGINAL EMAIL SUBJECT: \"" + Interpolate(Get(prompt, "subject")) + "\"\n\nORIGINAL EMAIL BODY: \"" + Interpolate(Get(prompt, "body")) + "\""
  }

  /** The Messages API call the proxy makes (one user message). */
  datatype UpstreamRequest = UpstreamRequest(
    apiKey: string,
    anthropicVersion: string,
    model: string,
    maxTokens: int,
    system: string,
    userPrompt: string)

  /** How the upstream call ends:
      - `Replied`: an OK response; `content` lists the `text` of each content block;
      - `HttpError`: a non-OK status with the raw response text;
      - `Threw`: `fetch` or the JSON read threw, with the error's message. */
  datatype Upstream =
    | Replied(content: seq<Option<string>>)
    | HttpError(status: int, text: string)
    | Threw(message: string)

  /** Either the handler has already returned, or it calls upstream with this request. */
  datatype Step = Respond(response: Response) | CallUpstream(request: UpstreamRequest)

  /** The handler up to the upstream call. It calls upstream exactly for a POST with a key,
      a parsed body, a truthy prompt and a known task. */
  function Prepare(event: Event, apiKey: string): (r: Step)
    ensures r.CallUpstream? <==>
      event.httpMethod == "POST" && apiKey != "" && event.body.Parsed? &&
      Truthy(event.body.payload.prompt) && TaskOf(event.body.payload.task).Some?
  {
    if event.httpMethod != "POST" then Respond(MethodNotAllowed)
    else if apiKey == "" then Respond(Response(500, ErrorJson(MissingKey)))
    else
      match event.body
      case Unparseable(message) => Respond(Response(500, ErrorJson(message)))
      case Parsed(p) =>
        if !Truthy(p.prompt) || !Truthy(p.task) then Respond(Response(400, ErrorJson(MissingFields)))
        else
          match TaskOf(p.task)
          case None => Respond(Response(400, ErrorJson(InvalidTask)))
          case Some(t) =>
            CallUpstream(UpstreamRequest(apiKey, ApiVersion, Model, MaxTokens, SystemPrompt(t), UserPrompt(t, p.prompt)))
  }

  /** `content[0]?.text`. */
  function FirstText(content: seq<Option<string>>): Option<string>
  {
    if content == [] then None else content[0]
  }

  /** The handler after the upstream call. */
  function Complete(reply: Upstream): Response
  {
    match reply
    case Replied(content) => Response(200, ModelJson(TextOrEmptyJson(FirstText(content))))
    case HttpError(status, text) => Response(status, ErrorJson("Anthropic API error: " + text))
    case Threw(message) => Response(500, ErrorJson(message))
  }

  /** `exports.handler`, with the upstream outcome as an input. */
  function Handler(event: Event, apiKey: string, reply: Upstream): Response
  {
    match Prepare(event, apiKey)
    case Respond(r) => r
    case CallUpstream(_) => Complete(reply)
  }

  /** The guard ladder answers exactly as the Gemini proxy's does, except for the name of
      the missing key; both call upstream on the same requests. */
  lemma SameLadderAsGemini(event: Event, apiKey: string)
    ensures Prepare(event, apiKey).CallUpstream? <==> GeminiProxy.Prepare(event, apiKey).CallUpstream?
    ensures apiKey != "" && Prepare(event, apiKey).Respond? ==>
      GeminiProxy.Prepare(event, apiKey).Respond? && Prepare(event, apiKey).response == GeminiProxy.Prepare(event, apiKey).response
  {
  }

  /** The three user-prompt templates are those of the Gemini proxy. */
  lemma SameTemplatesAsGemini(t: Task, prompt: JsValue)
    requires Truthy(prompt)
    ensures UserPrompt(t, prompt) == GeminiProxy.UserPrompt(t, prompt)
  {
  }

  /** A non-POST gets 405 before anything else is looked at, the key included. */
  lemma NonPostRejected(event: Event, apiKey: string, reply: Upstream)
    requires event.httpMethod != "POST"
    ensures Handler(event, apiKey, reply) == MethodNotAllowed
  {
  }

  /** A POST without a key gets 500 before the body is looked at. */
  lemma MissingKeyRejected(event: Event, reply: Upstream)
    requires event.httpMethod == "POST"
    ensures Handler(event, "", reply) == Response(500, ErrorJson(MissingKey))
  {
  }

  /** A non-OK upstream status is passed through with the raw text after a prefix; an OK
      reply gives 200 with the first block's text, or "{}" when there is no block or the
      first has no text; a call that throws gives 500 with the error's message. */
  lemma UpstreamMapping(status: int, text: string, content: seq<Option<string>>, message: string)
    ensures Complete(HttpError(status, text)) == Response(status, ErrorJson("Anthropic API error: " + text))
    ensures content == [] ==> Complete(Replied(content)) == Response(200, ModelJson("{}"))
    ensures content != [] && content[0].Some? && content[0].value != "" ==>
      Complete(Replied(content)) == Response(200, ModelJson(content[0].value))
    ensures content != [] && (content[0].None? || content[0].value == "") ==>
      Complete(Replied(content)) == Response(200, ModelJson("{}"))
    ensures Complete(Threw(message)) == Response(500, ErrorJson(message))
  {
  }
}
