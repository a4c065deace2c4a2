/** What the two Netlify proxy functions receive and return. JSON parsing is not
    modelled: the request body arrives already parsed (or as the parse error). */
module ProxyTypes {
  import opened Wrappers

  /** A JSON value after `JSON.parse`; object fields are modelled as strings. */
  datatype JsValue = Undefined | Null | Str(s: string) | Obj(fields: map<string, string>)

  /** JavaScript truthiness: `undefined`, `null` and `""` are falsy, objects are truthy. */
  predicate Truthy(v: JsValue)
  {
    match v
    case Undefined => false
    case Null => false
    case Str(s) => s != ""
    case Obj(_) => true
  }

  /** Template-literal interpolation `${v}`. */
  function Interpolate(v: JsValue): string
  {
    match v
    case Undefined => "undefined"
    case Null => "null"
    case Str(s) => s
    case Obj(_) => "[object Object]"
  }

  /** Property access `v.name` on a truthy value: an object's own field, `undefined`
      otherwise (a string has no such property). */
  function Get(v: JsValue, name: string): JsValue
    requires Truthy(v)
  {
    match v
    case Obj(m) => if name in m then Str(m[name]) else Undefined
    case _ => Undefined
  }

  /** The tasks the proxies accept. */
  datatype Task = Generate | Refine | SmartReply

  /** The `switch (task)` on a strictly-equal string; `None` is the `default` branch. */
  function TaskOf(v: JsValue): (t: Option<Task>)
    ensures t == Some(Generate) <==> v == Str("generate")
    ensures t == Some(Refine) <==> v == Str("refine")
    ensures t == Some(SmartReply) <==> v == Str("smart-reply")
    ensures t.Some? ==> Truthy(v)
  {
    match v
    case Str(s) =>
      if s == "generate" then Some(Generate)
      else if s == "refine" then Some(Refine)
      else if s == "smart-reply" then Some(SmartReply)
      else None
    case _ => None
  }

  /** The `{ prompt, task }` destructured from the request body. */
  datatype Payload = Payload(prompt: JsValue, task: JsValue)

  /** `JSON.parse(event.body || '{}')` with its destructuring: the payload, or the message of
      the error they threw. An absent body parses as `{}`, i.e. both fields `Undefined`. */
  datatype ParsedBody = Parsed(payload: Payload) | Unparseable(message: string)

  datatype Event = Event(httpMethod: string, body: ParsedBody)

  /** A plain-text body, `JSON.stringify({ error })`, or the model's JSON text sent with
      `Content-Type: application/json`. */
  datatype ResponseBody = PlainText(text: string) | ErrorJson(error: string) | ModelJson(text: string)

  datatype Response = Response(statusCode: int, body: ResponseBody)

  const MethodNotAllowed := Response(405, PlainText("Method Not Allowed"))
  const MissingFields := "Missing \"prompt\" or \"task\" in request body."
  const InvalidTask := "Invalid task specified."
  const EmptyJson := "{}"

  /** `text || '{}'` for an optional model text. */
  function TextOrEmptyJson(text: Option<string>): string
  {
    if text.Some? && text.value != "" then text.value else EmptyJson
  }
}
