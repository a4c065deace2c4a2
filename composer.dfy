/** The composer panel: a prompt box that asks the model for a subject and a body, and the
    subject and body fields themselves, which edit the controller's draft. The model call
    is not modelled: its outcome arrives as a `Generation`. */
module Composer {
  import opened Wrappers
  import App
  import GeminiProxy

  const ModelName := "gemini-2.5-flash"
  const EmptyPrompt := "Please enter a prompt for the email content."
  const GenerateFailed := "Failed to generate content. Please try again."
  const Preamble := "Based on the following prompt, generate a professional email. \n\nPROMPT: \""

  /** What `generateContent` is asked for. */
  datatype GenerateRequest = GenerateRequest(
    model: string,
    contents: string,
    responseMimeType: string,
    responseSchema: GeminiProxy.Schema)

  /** How the call ended: the parsed `subject` and `body`, or a failure of the call, of the
      reply's text or of its JSON. */
  datatype Generation = Generated(subject: string, body: string) | Failed

  /** The response schema: an object with a string `subject` and a string `body`, both
      required. */
  const ComposeSchema := GeminiProxy.ObjectSchema(
    [("subject", GeminiProxy.StringType), ("body", GeminiProxy.StringType)], ["subject", "body"])

  /** The request for a prompt: the preamble, then the prompt in double quotes. */
  function RequestFor(prompt: string): GenerateRequest
  {
    GenerateRequest(ModelName, Preamble + prompt + "\"", "application/json", ComposeSchema)
  }

  /** The prompt is quoted verbatim: it can be read back from the request between the
      preamble and the closing quote, so distinct prompts give distinct requests. */
  lemma PromptRecoverable(prompt: string)
    ensures var c := RequestFor(prompt).contents;
      |c| == |Preamble| + |prompt| + 1 && c[..|Preamble|] == Preamble && c[|Preamble|..|c| - 1] == prompt
    ensures forall other: string {:trigger RequestFor(other)} :: RequestFor(other) == RequestFor(prompt) ==> other == prompt
  {
    var c := RequestFor(prompt).contents;
    assert c[|Preamble|..|c| - 1] == prompt;
    forall other: string | RequestFor(other) == RequestFor(prompt) ensures other == prompt {
      var d := RequestFor(other).contents;
      assert |other| == |prompt|;
      assert d[|Preamble|..|d| - 1] == other;
    }
  }

  /** Both fields the composer reads back are declared strings and required. */
  lemma ComposeSchemaFields()
    ensures forall n | n in ComposeSchema.required :: GeminiProxy.PropertyType(ComposeSchema, n) == Some(GeminiProxy.StringType)
    ensures ComposeSchema.required == ["subject", "body"]
  {
  }

  /** The AI panel's own state; subject and body live in the controller. */
  class Composer {
    const app: App.App
    var prompt: string
    var isGenerating: bool
    var error: string

    constructor (app: App.App)
      ensures this.app == app && prompt == "" && !isGenerating && error == ""
    {
      this.app := app;
      prompt := "";
      isGenerating := false;
      error := "";
    }

    /** `handleGenerate`: an empty prompt only sets the error. Otherwise one request is made;
        a generation replaces subject and body, a failure sets the error and keeps them, and
        the generating flag is off afterwards either way. */
    method HandleGenerate(reply: Generation) returns (request: Option<GenerateRequest>)
      requires app.Valid()
      modifies this, app
      ensures app.Valid()
      ensures prompt == old(prompt)
      ensures old(prompt) == "" ==>
        request == None && error == EmptyPrompt && isGenerating == old(isGenerating) && app.State() == old(app.State())
      ensures old(prompt) != "" ==> request == Some(RequestFor(old(prompt))) && !isGenerating
      ensures old(prompt) != "" && reply.Generated? ==>
        error == "" && app.State() == old(app.State()).(draft := old(app.draft).(subject := reply.subject, body := reply.body))
      ensures old(prompt) != "" && reply.Failed? ==> error == GenerateFailed && app.State() == old(app.State())
    {
      if prompt == "" {
        error := EmptyPrompt;
        return None;
      }
      isGenerating := true;
      error := "";
      request := Some(RequestFor(prompt));
      match reply {
        case Generated(subject, body) =>
          app.SetSubject(subject);
          app.SetBody(body);
        case Failed =>
          error := GenerateFailed;
      }
      isGenerating := false;
    }

    method EditPrompt(v: string)
      modifies this
      ensures prompt == v && isGenerating == old(isGenerating) && error == old(error)
    {
      prompt := v;
    }

    method EditSubject(v: string)
      requires app.Valid()
      modifies app
      ensures app.Valid()
      ensures app.State() == old(app.State()).(draft := old(app.draft).(subject := v))
    {
      app.SetSubject(v);
    }

    method EditBody(v: string)
      requires app.Valid()
      modifies app
      ensures app.Valid()
      ensures app.State() == old(app.State()).(draft := old(app.draft).(body := v))
    {
      app.SetBody(v);
    }
  }
}
