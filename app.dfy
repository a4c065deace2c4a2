/** The top-level controller: it owns the draft (firm, recipients, subject, body,
    attachments, reply context), the send status and its message, the preview state, the
    active view and the known contacts, and handles send, preview and smart reply. Each
    handler runs to completion in the model: the backend's or the AI proxy's answer is an
    input, and the request the handler issued is its output. */
module App {
  import opened Wrappers
  import opened Types
  import opened Seqs
  import opened Text
  import Constants
  import opened EmailService
  import ProxyTypes
  import GeminiProxy

  datatype View = ComposerView | InboxView

  datatype Status = Idle | Sending | Success | Error

  /** The three recipient lists. */
  datatype Field = To | Cc | Bcc

  /** Set while the draft answers an inbox thread. */
  datatype ReplyContext = ReplyContext(threadId: string)

  /** The message being composed: the controller's draft cells, held as one record. */
  datatype DraftMessage = DraftMessage(
    firm: Firm,
    to: seq<string>,
    cc: seq<string>,
    bcc: seq<string>,
    subject: string,
    body: string,
    attachments: seq<AttachmentFile>,
    replyContext: Option<ReplyContext>)
  {
    function Emails(f: Field): seq<string>
    {
      match f
      case To => to
      case Cc => cc
      case Bcc => bcc
    }

    /** This draft with recipient list `f` replaced by `v`. */
    function WithEmails(f: Field, v: seq<string>): DraftMessage
    {
      match f
      case To => this.(to := v)
      case Cc => this.(cc := v)
      case Bcc => this.(bcc := v)
    }

    /** This draft emptied; only the firm stays. */
    function Cleared(): DraftMessage
    {
      this.(to := [], cc := [], bcc := [], subject := "", body := "", attachments := [], replyContext := None)
    }
  }

  /** Setting one recipient list changes that list and nothing else in the draft. */
  lemma WithEmailsTouchesOneList(d: DraftMessage, f: Field, v: seq<string>, g: Field)
    ensures d.WithEmails(f, v).Emails(g) == if f == g then v else d.Emails(g)
    ensures d.WithEmails(f, v).(to := d.to, cc := d.cc, bcc := d.bcc) == d
  {
  }

  /** Every state cell of the controller, as one value. */
  datatype AppState = AppState(
    view: View,
    draft: DraftMessage,
    status: Status,
    errorMessage: string,
    isPreviewOpen: bool,
    previewHtml: string,
    knownContacts: seq<string>)

  const NoRecipient := "Please add at least one recipient in \"To\"."
  const NoSubject := "Subject cannot be empty."
  const NoBody := "Email body cannot be empty."
  const UnknownBackendError := "An unknown error occurred from Apps Script."
  const SendFailed := "Failed to send email. Check console for details."
  const PreviewUnavailable := "Could not generate preview."
  const PreviewFailed := "Failed to generate preview."
  const SmartReplyFailed := "Failed to generate smart reply."
  const SmartReplyPlaceholder := "<p>Generating smart reply...</p>"

  /** The condition under which a draft may be submitted: a recipient in "To" or a reply
      context, a subject unless replying, and a body in every case. */
  predicate Submittable(d: DraftMessage)
  {
    (d.replyContext.Some? || |d.to| > 0) && (d.replyContext.Some? || d.subject != "") && d.body != ""
  }

  /** The local checks before a send, in order; the message of the first one that fails. */
  function ValidationError(d: DraftMessage): (r: Option<string>)
    ensures r.None? <==> Submittable(d)
    ensures r.Some? ==> r.value in {NoRecipient, NoSubject, NoBody}
  {
    if d.replyContext.None? && |d.to| == 0 then Some(NoRecipient)
    else if d.replyContext.None? && d.subject == "" then Some(NoSubject)
    else if d.body == "" then Some(NoBody)
    else None
  }

  /** The first failing check decides the message: a missing recipient is reported even when
      the subject and body are also missing, and an empty body is refused even when replying. */
  lemma ValidationOrder(d: DraftMessage)
    ensures d.replyContext.None? && d.to == [] ==> ValidationError(d) == Some(NoRecipient)
    ensures d.replyContext.None? && d.to != [] && d.subject == "" ==> ValidationError(d) == Some(NoSubject)
    ensures (d.replyContext.Some? || (d.to != [] && d.subject != "")) && d.body == "" ==>
      ValidationError(d) == Some(NoBody)
  {
  }

  /** The `sendEmail` request built from a draft. */
  function SendRequest(d: DraftMessage): Request
  {
    SendEmail(Constants.FirmKey(d.firm), Join(d.to, ","), Join(d.cc, ","), Join(d.bcc, ","),
              d.subject, d.body, d.attachments,
              match d.replyContext case Some(c) => Some(c.threadId) case None => None)
  }

  /** The joined recipient field splits back into the draft's list when every address is
      non-empty and free of separators, as addresses entered by paste are; the thread id is
      present exactly when replying. */
  lemma {:induction false} SendRequestRecipients(d: DraftMessage)
    requires |d.to| >= 1
    requires forall k | 0 <= k < |d.to| :: d.to[k] != [] && NoSeparator(d.to[k])
    ensures SplitRuns(SendRequest(d).to) == d.to
    ensures SendRequest(d).threadId.Some? <==> d.replyContext.Some?
  {
    SplitJoin(d.to);
  }

  /** An address holding whitespace, ',' or ';' does not come back out of the joined field:
      every piece of the split is free of them. */
  lemma SeparatorBreaksRecipients(d: DraftMessage, k: int)
    requires 0 <= k < |d.to| && !NoSeparator(d.to[k])
    ensures SplitRuns(SendRequest(d).to) != d.to
  {
    var pieces := SplitRuns(SendRequest(d).to);
    if k < |pieces| {
      assert NoSeparator(pieces[k]);
    }
  }

  /** The message shown after a send that the backend did not accept. */
  function SendFailureMessage(reply: Reply): (m: string)
    requires !reply.Ok?
    ensures m != ""
    ensures reply.message != "" ==> m == reply.message
    ensures reply.NotOk? && reply.message == "" ==> m == UnknownBackendError
    ensures reply.Thrown? && reply.message == "" ==> m == SendFailed
  {
    match reply
    case NotOk(message) => if message != "" then message else UnknownBackendError
    case Thrown(message) => if message != "" then message else SendFailed
  }

  /** The message shown when no preview could be opened: the envelope's or the error's own
      message when it has one; otherwise "Could not generate preview." for an envelope
      (with or without `result: 'success'`) and "Failed to generate preview." for a failed
      request. */
  function PreviewFailureMessage(reply: Reply): (m: string)
    requires !(reply.Ok? && reply.html != "")
    ensures m != ""
    ensures reply.message != "" ==> m == reply.message
    ensures reply.message == "" && !reply.Thrown? ==> m == PreviewUnavailable
    ensures reply.message == "" && reply.Thrown? ==> m == PreviewFailed
  {
    match reply
    case Ok(_, _, message) => if message != "" then message else PreviewUnavailable
    case NotOk(message) => if message != "" then message else PreviewUnavailable
    case Thrown(message) => if message != "" then message else PreviewFailed
  }

  /** How the smart-reply call to the AI proxy ends: `Generated` with the parsed reply's
      `body`; `Refused`, a non-OK response with its `error` field ("" when absent); `Failed`,
      a network or parse failure with the error's message. */
  datatype AiReply = Generated(body: string) | Refused(error: string) | Failed(message: string)

  /** The message shown after a failed smart reply: the proxy's `error` or the thrown
      error's message when non-empty, else "Failed to generate smart reply.". */
  function SmartReplyFailureMessage(reply: AiReply): (m: string)
    requires !reply.Generated?
    ensures m != ""
    ensures reply.Refused? ==> m == if reply.error != "" then reply.error else SmartReplyFailed
    ensures reply.Failed? ==> m == if reply.message != "" then reply.message else SmartReplyFailed
  {
    match reply
    case Refused(error) => if error != "" then error else SmartReplyFailed
    case Failed(message) => if message != "" then message else SmartReplyFailed
  }

  /** The body posted to the AI proxy for a smart reply to `email`. */
  function SmartReplyPayload(email: EmailData): ProxyTypes.Payload
  {
    ProxyTypes.Payload(ProxyTypes.Obj(map["subject" := email.subject, "body" := email.body]),
                       ProxyTypes.Str("smart-reply"))
  }

  /** A configured Gemini proxy answers a smart-reply payload with an upstream call whose
      prompt quotes the original subject and body. */
  lemma SmartReplyReachesModel(email: EmailData, apiKey: string)
    requires apiKey != ""
    ensures var step := GeminiProxy.Prepare(ProxyTypes.Event("POST", ProxyTypes.Parsed(SmartReplyPayload(email))), apiKey);
      step.CallUpstream? &&
      step.request.userPrompt ==
        "ORIGINAL EMAIL SUBJECT: \"" + email.subject + "\"\n\nORIGINAL EMAIL BODY: \"" + email.body + "\"" &&
      step.request.responseSchema == GeminiProxy.ResponseSchema(ProxyTypes.SmartReply)
  {
    var p := SmartReplyPayload(email);
    SmartReplyPromptFields(email);
    GeminiProxy.PrepareCall(ProxyTypes.Event("POST", ProxyTypes.Parsed(p)), apiKey);
    GeminiProxy.SmartReplyPrompt(p.prompt, email.subject, email.body);
  }

  lemma SmartReplyPromptFields(email: EmailData)
    ensures var p := SmartReplyPayload(email);
      ProxyTypes.Truthy(p.prompt) && ProxyTypes.TaskOf(p.task) == Some(ProxyTypes.SmartReply) &&
      ProxyTypes.Get(p.prompt, "subject") == ProxyTypes.Str(email.subject) &&
      ProxyTypes.Get(p.prompt, "body") == ProxyTypes.Str(email.body)
  {
    var fields := map["subject" := email.subject, "body" := email.body];
    assert "subject" in fields && fields["subject"] == email.subject;
    assert "body" in fields && fields["body"] == email.body;
  }

  /** The reply context a smart reply sets: the email's thread, when it has a non-empty one. */
  function ReplyContextOf(email: EmailData): (r: Option<ReplyContext>)
    ensures r.Some? <==> email.threadId.Some? && email.threadId.value != ""
    ensures r.Some? ==> r.value.threadId == email.threadId.value
  {
    match email.threadId
    case Some(t) => if t != "" then Some(ReplyContext(t)) else None
    case None => None
  }

  /** JavaScript's line terminators, which `.` in a regular expression does not match. */
  predicate IsLineTerminator(c: char)
  {
    c == '\n' || c == '\r' || c == '\U{2028}' || c == '\U{2029}'
  }

  /** The first index at or after `i` holding a line terminator, or `|s|`. */
  function LineEnd(s: string, i: nat): (e: nat)
    requires i <= |s|
    ensures i <= e <= |s|
    ensures forall k | i <= k < e :: !IsLineTerminator(s[k])
    ensures e < |s| ==> IsLineTerminator(s[e])
    decreases |s| - i
  {
    if i == |s| || IsLineTerminator(s[i]) then i else LineEnd(s, i + 1)
  }

  /** The last index in `[lo, hi)` holding '>'. */
  function LastClose(s: string, lo: nat, hi: nat): (r: Option<nat>)
    requires hi <= |s|
    ensures r.Some? ==> lo <= r.value < hi && s[r.value] == '>'
    ensures r.Some? ==> forall k | r.value < k < hi :: s[k] != '>'
    ensures r.None? ==> forall k | lo <= k < hi :: s[k] != '>'
    decreases hi
  {
    if hi <= lo then None
    else if s[hi - 1] == '>' then Some(hi - 1)
    else LastClose(s, lo, hi - 1)
  }

  /** The group captured by `/<(.+)>/` in `s`, trying start positions from `p` on: the first
      '<' that has a '>' at least two characters later on the same line, up to the last such
      '>' (the greedy `.+`). */
  function MatchBracketed(s: string, p: nat): Option<string>
    requires p <= |s|
    decreases |s| - p
  {
    if p == |s| then None
    else if s[p] == '<' then
      match LastClose(s, p + 2, LineEnd(s, p + 1))
      case Some(q) => Some(s[p + 1..q])
      case None => MatchBracketed(s, p + 1)
    else MatchBracketed(s, p + 1)
  }

  /** The address in a sender string: "" for a value that is not a string, the bracketed
      part when there is one, the string itself otherwise. */
  function ExtractEmail(from: Option<string>): string
  {
    match from
    case None => ""
    case Some(s) =>
      match MatchBracketed(s, 0)
      case Some(m) => m
      case None => s
  }

  lemma {:induction false} NoMatchWithoutOpen(s: string, p: nat)
    requires p <= |s|
    requires forall k | p <= k < |s| :: s[k] != '<'
    ensures MatchBracketed(s, p) == None
    decreases |s| - p
  {
    if p < |s| {
      NoMatchWithoutOpen(s, p + 1);
    }
  }

  /** A sender without '<' is used as it is; a value that is not a string gives "". */
  lemma ExtractPlain(s: string)
    requires '<' !in s
    ensures ExtractEmail(Some(s)) == s
    ensures ExtractEmail(None) == ""
  {
    NoMatchWithoutOpen(s, 0);
  }

  lemma {:induction false} MatchSkipsTo(s: string, p: nat, target: nat)
    requires p <= target <= |s|
    requires forall k | p <= k < target :: s[k] != '<'
    ensures MatchBracketed(s, p) == MatchBracketed(s, target)
    decreases target - p
  {
    if p < target {
      MatchSkipsTo(s, p + 1, target);
    }
  }

  /** `/<(.+)>/` can match with its '<' at `p` and its '>' at `q`: at least one character
      between them, none of them a line terminator. */
  predicate IsBracket(s: string, p: int, q: int)
  {
    0 <= p && p + 2 <= q < |s| && s[p] == '<' && s[q] == '>' &&
    forall k | p + 1 <= k < q :: !IsLineTerminator(s[k])
  }

  /** From `p` on, the search finds nothing exactly when no bracket pair starts there;
      otherwise it captures between the leftmost such '<' and, for it, the last '>'. */
  lemma {:induction false} MatchBracketedLeftmostGreedy(s: string, p: nat)
    requires p <= |s|
    ensures MatchBracketed(s, p).None? <==> !exists a, b | p <= a :: IsBracket(s, a, b)
    ensures MatchBracketed(s, p).Some? ==>
      exists a, b | p <= a && IsBracket(s, a, b) ::
        MatchBracketed(s, p).value == s[a + 1..b] &&
        (forall a', b' | p <= a' < a :: !IsBracket(s, a', b')) &&
        (forall b' | b < b' :: !IsBracket(s, a, b'))
    decreases |s| - p
  {
    if p < |s| {
      MatchBracketedLeftmostGreedy(s, p + 1);
      if s[p] == '<' {
        var e := LineEnd(s, p + 1);
        match LastClose(s, p + 2, e)
        case Some(q) =>
          assert IsBracket(s, p, q);
          forall b' | IsBracket(s, p, b') ensures b' <= q {
            BracketWithinLine(s, p, b');
          }
        case None =>
          forall b | IsBracket(s, p, b) ensures b < e {
            BracketWithinLine(s, p, b);
          }
      }
    }
  }

  /** The '>' of a bracket pair lies before the end of the line its '<' is on. */
  lemma BracketWithinLine(s: string, p: nat, q: nat)
    requires IsBracket(s, p, q)
    ensures q < LineEnd(s, p + 1)
  {
  }

  /** A sender is used as it is exactly when no bracket pair occurs in it; otherwise the
      address is the text between the leftmost '<' that has a matching '>' and its last '>'. */
  lemma ExtractBracketed(s: string)
    ensures ExtractEmail(Some(s)) == s <==> !exists a, b :: IsBracket(s, a, b)
    ensures (exists a, b :: IsBracket(s, a, b)) ==>
      exists a, b | IsBracket(s, a, b) ::
        ExtractEmail(Some(s)) == s[a + 1..b] &&
        (forall a', b' | a' < a :: !IsBracket(s, a', b')) &&
        (forall b' | b < b' :: !IsBracket(s, a, b'))
  {
    MatchBracketedLeftmostGreedy(s, 0);
  }

  /** "Name <address>" gives the address, when the name has no '<' and the address is a
      non-empty single line. */
  lemma ExtractDisplayName(name: string, address: string)
    requires '<' !in name
    requires address != [] && forall k | 0 <= k < |address| :: !IsLineTerminator(address[k])
    ensures ExtractEmail(Some(name + "<" + address + ">")) == address
  {
    var s := name + "<" + address + ">";
    var p := |name|;
    assert s[p] == '<';
    MatchSkipsTo(s, 0, p);
    assert forall k | p + 1 <= k < |s| :: !IsLineTerminator(s[k]) by {
      forall k | p + 1 <= k < |s| ensures !IsLineTerminator(s[k]) {
        if k < |s| - 1 { assert s[k] == address[k - p - 1]; }
      }
    }
    var e := LineEnd(s, p + 1);
    assert e == |s|;
    assert LastClose(s, p + 2, e) == Some(|s| - 1);
    assert s[p + 1..|s| - 1] == address;
  }

  /** The example of a display-name sender. */
  lemma ExtractExample()
    ensures ExtractEmail(Some("Jane Doe <jane@x.com>")) == "jane@x.com"
  {
    assert "Jane Doe <jane@x.com>" == "Jane Doe " + "<" + "jane@x.com" + ">";
    ExtractDisplayName("Jane Doe ", "jane@x.com");
  }

  /** The draft a generated smart reply leaves: addressed to the sender alone, without a
      subject of its own or attachments, with the generated body and the email's thread. */
  function SmartReplyDraft(d: DraftMessage, email: EmailData, body: string): DraftMessage
  {
    d.(to := [ExtractEmail(email.from)], cc := [], bcc := [], subject := "", body := body,
       attachments := [], replyContext := ReplyContextOf(email))
  }

  /** A smart-reply draft can be sent as it stands exactly when the generated body is
      non-empty and the email belonged to a thread; without a thread the empty subject
      blocks it. */
  lemma SmartReplySubmittable(d: DraftMessage, email: EmailData, body: string)
    ensures Submittable(SmartReplyDraft(d, email, body)) <==>
      body != "" && email.threadId.Some? && email.threadId.value != ""
    ensures email.threadId.None? ==> ValidationError(SmartReplyDraft(d, email, body)) == Some(NoSubject)
  {
  }

  /** The controller's state cells and handlers. */
  class App {
    var view: View
    var draft: DraftMessage
    var status: Status
    var errorMessage: string
    var isPreviewOpen: bool
    var previewHtml: string
    var knownContacts: seq<string>

    function State(): AppState
      reads this
    {
      AppState(view, draft, status, errorMessage, isPreviewOpen, previewHtml, knownContacts)
    }

    /** The known contacts hold each address once. */
    predicate Valid()
      reads this
    {
      NoDup(knownContacts)
    }

    /** The composer view with firm "HC" selected, an empty draft and an idle status. */
    constructor ()
      ensures Valid()
      ensures State() == AppState(ComposerView, DraftMessage(Constants.HreenkarCreation, [], [], [], "", "", [], None),
                                  Idle, "", false, "", [])
    {
      view := ComposerView;
      draft := DraftMessage(Constants.HreenkarCreation, [], [], [], "", "", [], None);
      status := Idle;
      errorMessage := "";
      isPreviewOpen, previewHtml := false, "";
      knownContacts := [];
    }

    /** The setter of one recipient list. */
    method SetEmails(f: Field, v: seq<string>)
      requires Valid()
      modifies this
      ensures Valid()
      ensures State() == old(State()).(draft := old(draft).WithEmails(f, v))
    {
      draft := draft.WithEmails(f, v);
    }

    method SetSubject(v: string)
      requires Valid()
      modifies this
      ensures Valid()
      ensures State() == old(State()).(draft := old(draft).(subject := v))
    {
      draft := draft.(subject := v);
    }

    method SetBody(v: string)
      requires Valid()
      modifies this
      ensures Valid()
      ensures State() == old(State()).(draft := old(draft).(body := v))
    {
      draft := draft.(body := v);
    }

    method SetAttachments(v: seq<AttachmentFile>)
      requires Valid()
      modifies this
      ensures Valid()
      ensures State() == old(State()).(draft := old(draft).(attachments := v))
    {
      draft := draft.(attachments := v);
    }

    /** The firm selector's choice. */
    method SelectFirm(f: Firm)
      requires Valid()
      modifies this
      ensures Valid()
      ensures State() == old(State()).(draft := old(draft).(firm := f))
    {
      draft := draft.(firm := f);
    }

    /** The Composer / Inbox tabs. */
    method SetView(v: View)
      requires Valid()
      modifies this
      ensures Valid()
      ensures State() == old(State()).(view := v)
    {
      view := v;
    }

    method ClosePreview()
      requires Valid()
      modifies this
      ensures Valid()
      ensures State() == old(State()).(isPreviewOpen := false)
    {
      isPreviewOpen := false;
    }

    /** `resetForm`: the draft is emptied; firm, contacts, status and view stay. */
    method ResetForm()
      requires Valid()
      modifies this
      ensures Valid()
      ensures State() == old(State()).(draft := old(draft).Cleared())
    {
      draft := draft.(to := [], cc := [], bcc := []);
      draft := draft.(subject := "", body := "");
      draft := draft.(attachments := [], replyContext := None);
    }

    /** `handleContactsLoaded`: the known contacts become the duplicate-free union of the old
        ones and the new ones, old ones first. */
    method HandleContactsLoaded(contacts: seq<string>)
      requires Valid()
      modifies this
      ensures Valid()
      ensures State() == old(State()).(knownContacts := Distinct(old(knownContacts) + contacts))
      ensures knownContacts == old(knownContacts) + Distinct(NotIn(contacts, old(knownContacts)))
    {
      DistinctAppend(knownContacts, contacts);
      knownContacts := Distinct(knownContacts + contacts);
    }

    /** `handleSend`: the local checks, then one `sendEmail` request. A failed check sets
        the error and sends nothing; an accepted send clears the draft; a refused or failed
        send keeps the draft and shows the error. */
    method HandleSend(reply: Reply) returns (request: Option<Request>)
      requires Valid()
      modifies this
      ensures Valid()
      ensures ValidationError(old(draft)).Some? ==>
        request == None &&
        State() == old(State()).(status := Error, errorMessage := ValidationError(old(draft)).value)
      ensures ValidationError(old(draft)).None? ==> request == Some(SendRequest(old(draft)))
      ensures ValidationError(old(draft)).None? && reply.Ok? ==>
        State() == old(State()).(draft := old(draft).Cleared(), status := Success, errorMessage := "")
      ensures ValidationError(old(draft)).None? && !reply.Ok? ==>
        State() == old(State()).(status := Error, errorMessage := SendFailureMessage(reply))
    {
      var check := ValidationError(draft);
      if check.Some? {
        errorMessage := check.value;
        status := Error;
        return None;
      }
      status := Sending;
      errorMessage := "";
      request := Some(SendRequest(draft));
      if reply.Ok? {
        status := Success;
        ResetForm();
      } else {
        errorMessage := SendFailureMessage(reply);
        status := Error;
      }
    }

    /** The timer set after a successful send fires: the status goes back to idle. */
    method SuccessTimerFired()
      requires Valid()
      modifies this
      ensures Valid()
      ensures State() == old(State()).(status := Idle)
    {
      status := Idle;
    }

    /** `handlePreview`: one `getPreview` request; the preview opens only for a successful
        reply with markup. The draft is never touched, and the `finally` leaves the status
        idle even after an error, whose message stays. */
    method HandlePreview(reply: Reply) returns (request: Request)
      requires Valid()
      modifies this
      ensures Valid()
      ensures request == GetPreview(Constants.FirmKey(old(draft).firm), old(draft).body, old(draft).attachments)
      ensures reply.Ok? && reply.html != "" ==>
        State() == old(State()).(status := Idle, errorMessage := "", previewHtml := reply.html, isPreviewOpen := true)
      ensures !(reply.Ok? && reply.html != "") ==>
        State() == old(State()).(status := Idle, errorMessage := PreviewFailureMessage(reply))
    {
      status := Sending;
      errorMessage := "";
      request := GetPreview(Constants.FirmKey(draft.firm), draft.body, draft.attachments);
      if reply.Ok? && reply.html != "" {
        previewHtml := reply.html;
        isPreviewOpen := true;
      } else {
        errorMessage := PreviewFailureMessage(reply);
        status := Error;
      }
      status := Idle;
    }

    /** `handleSmartReply`: switches to the composer and asks the AI proxy for a reply to
        `email`. On success the draft becomes a reply to the sender with the generated body;
        on failure the placeholder body is cleared and the reply context dropped. The status
        ends idle either way. */
    method HandleSmartReply(email: EmailData, reply: AiReply) returns (request: ProxyTypes.Payload)
      requires Valid()
      modifies this
      ensures Valid()
      ensures request == SmartReplyPayload(email)
      ensures reply.Generated? ==>
        State() == old(State()).(view := ComposerView, status := Idle, errorMessage := "",
                                 draft := SmartReplyDraft(old(draft), email, reply.body))
      ensures !reply.Generated? ==>
        State() == old(State()).(view := ComposerView, status := Idle, errorMessage := SmartReplyFailureMessage(reply),
                                 draft := old(draft).(body := "", replyContext := None))
    {
      request := SmartReplyPayload(email);
      status := Sending;
      view := ComposerView;
      draft := draft.(body := SmartReplyPlaceholder);
      errorMessage := "";
      if reply.Generated? {
        draft := draft.(subject := "", body := reply.body);
        draft := draft.(to := [ExtractEmail(email.from)], cc := [], bcc := []);
        draft := draft.(attachments := [], replyContext := ReplyContextOf(email));
      } else {
        errorMessage := SmartReplyFailureMessage(reply);
        status := Error;
        draft := draft.(body := "", replyContext := None);
      }
      status := Idle;
    }
  }
}
