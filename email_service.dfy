/** The envelopes exchanged with the mail backend (a single POST endpoint). The
    transport itself (fetch, the HTTP status check and JSON parsing) is not modelled:
    its outcome arrives as a `Reply`. */
module EmailService {
  import opened Wrappers
  import opened Types

  /** Which field of the inbox the search term is matched against. */
  datatype SearchType = From | Subject

  /** The three requests the client sends; the constructor is the `action` tag. */
  datatype Request =
    | SendEmail(firmKey: string, to: string, cc: string, bcc: string, subject: string,
                body: string, attachments: seq<AttachmentFile>, threadId: Option<string>)
    | FetchInbox(searchTerm: string, searchType: SearchType)
    | GetPreview(firmKey: string, body: string, attachments: seq<AttachmentFile>)

  /** The `action` string each request carries. */
  function Action(r: Request): (tag: string)
    ensures tag == "sendEmail" <==> r.SendEmail?
    ensures tag == "fetchInbox" <==> r.FetchInbox?
    ensures tag == "getPreview" <==> r.GetPreview?
  {
    match r
    case SendEmail(_, _, _, _, _, _, _, _) => "sendEmail"
    case FetchInbox(_, _) => "fetchInbox"
    case GetPreview(_, _, _) => "getPreview"
  }

  /** What a request comes back with:
      - `Ok`: an envelope with `result: 'success'`; `html` is the preview markup ("" when
        absent), `emails` the inbox page (`None` when absent) and `message` the envelope's
        message ("" when absent);
      - `NotOk`: an envelope with any other `result`; `message` is "" when absent;
      - `Thrown`: the request failed before an envelope was read (network failure, non-OK
        status, unreadable JSON), with the error's message. */
  datatype Reply =
    | Ok(html: string, emails: Option<seq<EmailData>>, message: string)
    | NotOk(message: string)
    | Thrown(message: string)
}
