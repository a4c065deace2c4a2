# HB Mailing System: a Dafny model of the mail composer

The HB Mailing System is a single-page mail client for two trading firms. A user picks the
sending firm, collects To / Cc / Bcc addresses as pills, writes a subject and an HTML body
(by hand or with an AI prompt), attaches files, previews the branded message and sends it
through a Google Apps Script backend. An inbox tab lists and searches received mail and can
turn a message into an AI-drafted "smart reply". Two Netlify functions proxy the AI calls to
Gemini and to Anthropic.

This project models the client's controller and panels and both proxies:

- `App` (`app.dfy`) is the top-level controller. A class `App` owns the lifted state: the
  draft, the send status and its message, the preview, the view and the known contacts.
  Its handlers are `HandleSend`, `HandlePreview`, `HandleSmartReply`,
  `HandleContactsLoaded` and `ResetForm`. Each handler runs to completion: the backend's
  or proxy's answer is an input and the request it issued is its output. The draft cells
  (firm, to, cc, bcc, subject, body, attachments, reply context) are one `DraftMessage`
  record held in one field.
- `RecipientInput` (`recipient_input.dfy`) holds the address pattern, the pure `addEmails`
  filter, and a class `EmailInput` per field whose key, paste, blur and remove handlers
  update the controller's list.
- `AttachmentHandler` (`attachment_handler.dfy`) holds the data-URL payload extraction, the
  read loop over a batch (`ConvertFiles`, all or nothing) and the drop-zone class.
- `Composer` (`composer.dfy`) holds the AI prompt panel and the subject and body editors.
- `Inbox` (`inbox.dfy`) covers fetching, the one-shot sender capture, the suggestion filter,
  the display priority and the detail view.
- `Constants` (`constants.dfy`) is the firm registry and the name-to-key lookup.
- `GeminiProxy` and `AnthropicProxy` model each proxy as a guard ladder (`Prepare`), the
  mapping of the upstream outcome (`Complete`) and `Handler`, the two composed.
- Shared modules: `EmailService` (request and reply envelopes), `ProxyTypes` (JSON values,
  truthiness, events and responses), `Types`, `Seqs`, `Text` and `Wrappers`.

## Model

| member | source | states |
|---|---|---|
| RecipientInput.IsEmailIffPattern | components/RecipientInput.tsx:9 | the scan `IsEmail` accepts exactly the strings the regular expression matches: three non-empty runs without whitespace or '@', joined by '@' and a '.' |
| RecipientInput.ScanMatchesPattern | components/RecipientInput.tsx:9 | every string the scan accepts matches the pattern |
| RecipientInput.PatternPassesScan | components/RecipientInput.tsx:9 | every match of the pattern (an '@' at i, a '.' at j) passes the scan |
| RecipientInput.BuildAddress | components/RecipientInput.tsx:9 | local "@" host "." tld is an address whenever the three parts are non-empty and free of whitespace and '@' |
| RecipientInput.EmailHasNoSpace | components/RecipientInput.tsx:26-27 | an accepted address has no whitespace, so trimming leaves it unchanged |
| RecipientInput.Accepted | components/RecipientInput.tsx:25-27 | the surviving candidates are at most as many as the candidates, all valid, none already in the list |
| RecipientInput.AcceptedMember | components/RecipientInput.tsx:25-27 | x survives exactly when x is valid, not in the list, and some candidate trims to x |
| RecipientInput.AddEmailsContents | components/RecipientInput.tsx:24-30 | nothing is set exactly when every trimmed candidate is invalid or present; otherwise the old list is a strict prefix of the new one; the result holds the old addresses plus the valid trimmed candidates |
| RecipientInput.AcceptedAppend | components/RecipientInput.tsx:25-27 | the survivors of a batch are the survivors of its first part followed by those of its second, each judged against the list alone |
| RecipientInput.AcceptedSingle | components/RecipientInput.tsx:26-27 | one candidate survives, trimmed, exactly when its trimmed form is an address not already in the list |
| RecipientInput.AddEmailsInOrder | components/RecipientInput.tsx:24-30 | the new list is the old one followed by the survivors in candidate order, one per surviving candidate |
| RecipientInput.AddOneKeepsNoDup | components/RecipientInput.tsx:24-36 | adding one candidate to a duplicate-free list keeps it duplicate-free |
| RecipientInput.RepeatedInBatchAddedTwice | components/RecipientInput.tsx:27 | a batch naming a new address twice adds it twice, leaving a duplicate |
| RecipientInput.SeparatorAddressSplitOnSend | components/RecipientInput.tsx:9-36 | "a;b@x.co" passes the address pattern and is added to an empty list, and the joined To field then splits into "a" and "b@x.co" |
| RecipientInput.PasteThree | components/RecipientInput.tsx:43-48 | pasting "a, b; c" into an empty field gives [a, b, c] |
| RecipientInput.PasteSplit | components/RecipientInput.tsx:46 | "a, b; c" splits into exactly [a, b, c] for separator-free non-empty parts |
| RecipientInput.EmailInput.Add | components/RecipientInput.tsx:24-31 | the field's list becomes AddEmails of the old list when a candidate survives; otherwise the controller is unchanged; the other lists are untouched |
| RecipientInput.EmailInput.KeyDown | components/RecipientInput.tsx:33-41 | Enter, Tab and ',' offer the whole input as one candidate and clear it; Backspace on an empty input drops the last address (none on an empty list); other keys change nothing |
| RecipientInput.EmailInput.Paste | components/RecipientInput.tsx:43-48 | the split pieces are offered as one batch; the typed text is kept |
| RecipientInput.EmailInput.RemoveEmail | components/RecipientInput.tsx:50-52 | exactly the address at the index goes, the rest keep their order; an index out of range changes nothing |
| RecipientInput.EmailInput.Change | components/RecipientInput.tsx:64 | the input text follows the edit |
| RecipientInput.EmailInput.Focus | components/RecipientInput.tsx:67 | focus is set and the text kept |
| RecipientInput.EmailInput.Blur | components/RecipientInput.tsx:68-74 | focus is cleared; a non-empty text is offered as one candidate and cleared; an empty text changes nothing |
| RecipientInput.EmailInput.constructor | components/RecipientInput.tsx:20-22 | a field starts with no text and no focus |
| RecipientInput.RecipientInput.constructor | components/RecipientInput.tsx:82-90 | three fresh fields bound to To, Cc and Bcc of one controller |
| Text.SplitRuns | components/RecipientInput.tsx:46 | the split gives at least one piece and no piece holds a separator |
| Text.SplitStep | components/RecipientInput.tsx:46 | a separator-free piece, then a separator run, then the rest, splits off as one piece ahead of the rest's split |
| Text.SplitJoin | App.tsx:70-72 | splitting a ','-joined list of non-empty separator-free addresses gives the list back |
| Text.TrimmedEnds | components/RecipientInput.tsx:26 | the trimmed text neither starts nor ends with whitespace, and whitespace-free text is unchanged |
| Text.TrimStart | components/RecipientInput.tsx:26 | exactly the leading whitespace is removed |
| Text.TrimEnd | components/RecipientInput.tsx:26 | exactly the trailing whitespace is removed |
| Text.ToLower | components/Inbox.tsx:130 | lower-casing keeps the length |
| Seqs.Without | components/RecipientInput.tsx:51 | filtering out index i equals the list with position i cut out, or the list itself when i is out of range |
| Seqs.Distinct | App.tsx:43 | the Set round trip keeps each element once and loses and adds none |
| Seqs.DistinctAppend | App.tsx:43 | the union of a duplicate-free list with new items is that list, then the new items not already in it, each once, in order |
| Seqs.DistinctOfNoDup | App.tsx:43 | a duplicate-free list passes through the Set round trip unchanged |
| Seqs.DistinctSnoc | components/Inbox.tsx:84-88 | adding an element already in the Set leaves it, and a new one goes at the end |
| App.ValidationError | App.tsx:47-61 | no message exactly when the draft is submittable; otherwise one of the three messages |
| App.ValidationOrder | App.tsx:47-61 | the first failing check wins: missing "To" without a reply context, then the missing subject, then the missing body, which is refused even when replying |
| App.SendRequestRecipients | App.tsx:67-77 | for non-empty addresses free of whitespace, ',' and ';', the ','-joined To field splits back into the draft's list; a thread id is sent exactly when replying |
| App.SeparatorBreaksRecipients | App.tsx:70 | an address holding whitespace, ',' or ';' never comes back out of the joined To field |
| App.SendFailureMessage | App.tsx:84-90 | a refused or failed send shows the backend's or the error's own message when it has one, else "An unknown error occurred from Apps Script." for a refusal and "Failed to send email. Check console for details." for a failed request |
| App.PreviewFailureMessage | App.tsx:104-112 | a preview that cannot open shows the envelope's or the error's own message when it has one (also for a success envelope without markup), else "Could not generate preview." for an envelope and "Failed to generate preview." for a failed request |
| App.SmartReplyFailureMessage | App.tsx:137-167 | a failed smart reply shows the proxy's `error` or the thrown error's message when non-empty, else "Failed to generate smart reply." |
| App.SmartReplyReachesModel | App.tsx:125-135 | the smart-reply payload passes every check of a configured Gemini proxy, and the prompt sent upstream quotes the email's subject and body under the smart-reply schema |
| App.SmartReplyPromptFields | App.tsx:128-134 | the payload's task is "smart-reply" and its prompt carries the email's subject and body |
| App.ReplyContextOf | App.tsx:159-163 | a reply context is set exactly when the email has a non-empty thread id, and it carries that id |
| App.MatchBracketedLeftmostGreedy | App.tsx:146 | the match of `/<(.+)>/` fails exactly when no '<' has a '>' at least two characters later on its line; otherwise it captures from the leftmost such '<' to its last such '>' |
| App.ExtractBracketed | App.tsx:144-148 | a sender is returned unchanged exactly when it holds no such bracket pair; otherwise the leftmost, greedy bracketed text is returned |
| App.ExtractPlain | App.tsx:144-148 | a sender without '<' is used as it is; a value that is not a string gives "" |
| App.ExtractDisplayName | App.tsx:144-148 | "Name <address>" gives the address for a single-line address and a name without '<' |
| App.ExtractExample | App.tsx:144-148 | "Jane Doe <jane@x.com>" gives "jane@x.com" |
| App.NoMatchWithoutOpen | App.tsx:146 | with no '<' from a position on, the bracket pattern finds no match there |
| App.MatchSkipsTo | App.tsx:146 | the match search passes over positions without '<' unchanged |
| App.SmartReplySubmittable | App.tsx:47-163 | a generated reply can be sent as it stands exactly when its body is non-empty and the email had a thread; without a thread the empty subject blocks it |
| App.WithEmailsTouchesOneList | components/RecipientInput.tsx:85-87 | setting one recipient list changes that list and leaves the other two and the rest of the draft alone |
| App.App.constructor | App.tsx:17-30 | the composer view, firm "Hreenkar Creation", an empty draft, idle status, no preview, no contacts |
| App.App.SetEmails | App.tsx:19-21 | one recipient list is replaced, nothing else |
| App.App.SetSubject | App.tsx:22 | only the subject is replaced |
| App.App.SetBody | App.tsx:23 | only the body is replaced |
| App.App.SetAttachments | App.tsx:24 | only the attachment list is replaced |
| App.App.SelectFirm | App.tsx:214 | only the selected firm is replaced |
| App.App.SetView | App.tsx:196-203 | only the view changes |
| App.App.ClosePreview | App.tsx:234 | only the preview flag is cleared |
| App.App.ResetForm | App.tsx:32-40 | recipients, subject, body, attachments and reply context are emptied; firm, contacts, status and view stay |
| App.App.HandleContactsLoaded | App.tsx:42-44 | the contacts become the duplicate-free union: the old contacts unchanged, then the new ones not already known, in first-occurrence order; the invariant that the contacts hold no duplicate is kept |
| App.App.HandleSend | App.tsx:46-92 | a failed check sets status error with its message and sends nothing; otherwise one sendEmail request built from the draft; success clears the draft and sets status success; any other reply sets status error with the message and keeps the draft |
| App.App.SuccessTimerFired | App.tsx:83 | the status returns to idle and nothing else changes |
| App.App.HandlePreview | App.tsx:94-116 | one getPreview request with the firm key, body and attachments; the draft is never touched; the preview opens only for success with markup; the status ends idle even after an error, whose message stays |
| App.App.HandleSmartReply | App.tsx:118-174 | one smart-reply payload; the view switches to the composer and the status ends idle; success addresses the sender alone with the generated body, an empty subject, no cc, bcc or attachments and the email's thread; failure empties the body, drops the reply context and shows the message |
| AttachmentHandler.Base64Payload | components/AttachmentHandler.tsx:15 | there is no payload exactly when the data URL has no ','; the payload never holds a ',' |
| AttachmentHandler.PayloadRoundTrip | components/AttachmentHandler.tsx:15 | the payload written into "data:mime;base64,payload" is read back out when mime has no ',' |
| AttachmentHandler.RecordOfRead | components/AttachmentHandler.tsx:28-32 | a record keeps the file's name, type and data-URL payload |
| AttachmentHandler.RecordsAllOrNothing | components/AttachmentHandler.tsx:26-33 | a batch converts exactly when every read succeeds, and then gives one record per file in file order |
| AttachmentHandler.ReaddedFileRecordedTwice | components/AttachmentHandler.tsx:26-34 | there is no de-duplication: a file added again gets a second, identical record |
| AttachmentHandler.ConvertFiles | components/AttachmentHandler.tsx:25-33 | the read loop returns exactly the batch's records, or nothing on the first failed read |
| AttachmentHandler.AttachmentHandler.constructor | components/AttachmentHandler.tsx:21 | the zone starts without the highlight |
| AttachmentHandler.AttachmentHandler.HandleFileChange | components/AttachmentHandler.tsx:23-35 | no file list or a failed read leaves the controller unchanged; otherwise the list becomes the old list followed by the batch's records |
| AttachmentHandler.AttachmentHandler.HandleDrop | components/AttachmentHandler.tsx:37-42 | the highlight goes off and the dropped files take the same path |
| AttachmentHandler.AttachmentHandler.HandleDragEvent | components/AttachmentHandler.tsx:44-52 | dragenter and dragover set the highlight, dragleave clears it, other events leave it |
| AttachmentHandler.AttachmentHandler.RemoveAttachment | components/AttachmentHandler.tsx:54-56 | exactly the record at the index goes; an index out of range changes nothing |
| Composer.PromptRecoverable | components/Composer.tsx:30 | the prompt is quoted verbatim between the preamble and a closing quote, so distinct prompts give distinct requests |
| Composer.ComposeSchemaFields | components/Composer.tsx:33-46 | "subject" and "body" are both required and both declared strings |
| Composer.Composer.constructor | components/Composer.tsx:15-17 | an empty prompt, not generating, no error |
| Composer.Composer.HandleGenerate | components/Composer.tsx:19-60 | an empty prompt only sets its error and makes no call; otherwise one request for the prompt; a generation replaces subject and body, a failure sets the error and keeps them; the flag is off afterwards |
| Composer.Composer.EditPrompt | components/Composer.tsx:73 | only the prompt changes |
| Composer.Composer.EditSubject | components/Composer.tsx:97 | only the draft's subject changes |
| Composer.Composer.EditBody | components/Composer.tsx:107 | only the draft's body changes |
| Inbox.SendersMember | components/Inbox.tsx:85-87 | a name is a sender exactly when some message has it as a non-empty `from` |
| Inbox.CaptureSenders | components/Inbox.tsx:84-88 | the loop yields the distinct truthy senders in order of first occurrence |
| Inbox.CapturedPool | components/Inbox.tsx:84-88 | the captured pool is duplicate-free and holds exactly the truthy senders |
| Inbox.SuggestionsSubsequence | components/Inbox.tsx:128-132 | suggestions are a subsequence of the pool, in pool order |
| Inbox.SuggestionsMember | components/Inbox.tsx:128-132 | a sender is suggested exactly when it is in the pool and contains the input, ignoring case |
| Inbox.Render | components/Inbox.tsx:138-157 | loading first, then a non-empty error, then "no emails" for an empty list, then the list |
| Inbox.Inbox.constructor | components/Inbox.tsx:59-68 | loading, subject search, nothing captured, no selection |
| Inbox.Inbox.LoadEmails | components/Inbox.tsx:74-101 | one fetchInbox request; success replaces the list (absent means empty), and for an empty term before any capture also captures, reports and closes the capture; a failure sets the message or "Failed to fetch emails." and keeps the list; loading ends false |
| Inbox.Inbox.CaptureInitialSenders | components/Inbox.tsx:83-92 | the pool becomes the distinct senders, the controller's contacts absorb them, and the capture is closed for good |
| Inbox.Inbox.HandleSearchChange | components/Inbox.tsx:123-136 | the term follows the input; suggestions are the filtered pool only for a sender search with non-empty input, else none |
| Inbox.Inbox.ChangeSearchType | components/Inbox.tsx:190-194 | the term is reset, the type set and the suggestions cleared |
| Inbox.Inbox.PickSuggestion | components/Inbox.tsx:177-180 | the term becomes exactly the picked sender and the suggestions are cleared |
| Inbox.Inbox.SelectEmail | components/Inbox.tsx:149 | the clicked message is shown in the detail view |
| Inbox.Inbox.CloseDetail | components/Inbox.tsx:204 | the detail view closes |
| Inbox.Inbox.SmartReply | components/Inbox.tsx:46-47 | the shown message goes to the controller's smart reply, with its outcome |
| Constants.RegistryShape | constants.ts:3-15 | two entries, "HC" then "KA", with distinct names; only "HC" has a GSTIN; both share one mobile |
| Constants.FirmKeyOfRegistered | App.tsx:69 | each registered firm is sent under its own key |
| Constants.FirmKeyOfUnregistered | App.tsx:69 | an unregistered name is sent under "HC" |
| Constants.FirmKeyExample | App.tsx:69 | "Kambeshwar Agencies" resolves to "KA" |
| EmailService.Action | services/emailService.ts:60-76 | each request carries its own action tag, and only that one |
| ProxyTypes.TaskOf | netlify/functions/gemini-proxy.js:54-72 | a task is recognised exactly for "generate", "refine" and "smart-reply" |
| GeminiProxy.Prepare | netlify/functions/gemini-proxy.js:3-72 | the upstream call is made exactly for a POST with a key, a parsed body, a truthy prompt and a known task |
| GeminiProxy.PrepareCall | netlify/functions/gemini-proxy.js:74-85 | an accepted request goes upstream with the task's prompt, instruction and schema and JSON output |
| GeminiProxy.NonPostRejected | netlify/functions/gemini-proxy.js:4-6 | a non-POST gets 405 whatever else it carries |
| GeminiProxy.MissingKeyRejected | netlify/functions/gemini-proxy.js:8-11 | a POST without a key gets 500 before the body is read |
| GeminiProxy.BodyChecks | netlify/functions/gemini-proxy.js:15-115 | an unreadable body gets 500 with the parse message; a missing prompt or task gets 400 |
| GeminiProxy.UnknownTaskRejected | netlify/functions/gemini-proxy.js:70-71 | any other truthy task gets 400 "Invalid task specified." and no upstream call |
| GeminiProxy.SmartReplyPrompt | netlify/functions/gemini-proxy.js:67 | the smart-reply prompt quotes the subject and the body |
| GeminiProxy.SchemaByTask | netlify/functions/gemini-proxy.js:26-83 | every schema requires a string body; only generate requires subjectVariations, an array of strings; every required field is declared |
| GeminiProxy.UpstreamMapping | netlify/functions/gemini-proxy.js:95-115 | a non-OK status is passed through with "Gemini API error: " and the upstream message, or "Unknown error" when it is absent or empty; an OK reply gives 200 with the text or "{}"; a thrown call gives 500 with the error's message |
| AnthropicProxy.Prepare | netlify/functions/anthropic-proxy.js:4-59 | the upstream call is made exactly for a POST with a key, a parsed body, a truthy prompt and a known task |
| AnthropicProxy.NonPostRejected | netlify/functions/anthropic-proxy.js:5-7 | a non-POST gets 405 whatever the key or body |
| AnthropicProxy.MissingKeyRejected | netlify/functions/anthropic-proxy.js:9-12 | a POST without ANTHROPIC_API_KEY gets 500 with the missing-key message before the body is read |
| AnthropicProxy.SameLadderAsGemini | netlify/functions/anthropic-proxy.js:5-58 | both proxies accept the same requests and, given a key, reject the rest with the same responses |
| AnthropicProxy.SameTemplatesAsGemini | netlify/functions/anthropic-proxy.js:34-54 | the three user-prompt templates equal the Gemini proxy's |
| AnthropicProxy.UpstreamMapping | netlify/functions/anthropic-proxy.js:76-96 | a non-OK status comes back with the raw text after "Anthropic API error: "; an OK reply gives 200 with the first block's text, or "{}" when there is no block or its text is missing or empty; a thrown call gives 500 with the error's message |

## Left out

- HTTP transport and JSON parsing of the mail backend (services/emailService.ts:33-58) are out of scope: a request's outcome is a `Reply` value, with transport failures as `Thrown`.
- The AI calls are outside the model: the Gemini SDK call in the composer, the smart-reply fetch and both proxies' upstream fetches. Their outcomes are inputs: `Generation`, `AiReply` and `Upstream`.
- The proxies' API keys come from the environment; they are parameters, with "" standing for an unset key.
- JSON values are limited to undefined, null, strings and objects with string fields. Numbers, booleans and arrays sent as `prompt` or `task` are not modelled.
- `FileReader` is an input: each file arrives with the outcome of its read (`ReadOutcome`).
- AttachmentHandler.Record: a data URL without ',' would store `undefined` as the data; the model stores "".
- AttachmentHandler.AttachmentHandler.HandleFileChange: appends to the list as it stands when the batch completes. The source appends to the list captured when the handler was created, which differs if the list changes during the reads.
- Timers are left out. The five-second revert after a send is the explicit event `SuccessTimerFired`. The search debounce is left out: `LoadEmails` takes the settled term.
- Inbox.Inbox.LoadEmails: stale search responses are not reordered; each call is one complete fetch.
- The click-outside listener of the suggestion box is left out. It is a DOM listener that only clears the suggestions.
- Date formatting in the inbox list and detail view is left out.
- Unmounting a panel, which resets its local state, is left out.
- Rendering is left out.
- Disabled buttons are not modelled. These are Generate while generating and Send while sending.
- Whitespace and case are ASCII only: `\s` and `trim` beyond ASCII whitespace, and Unicode lower-casing, are not modelled.
- Text.ToLower: its contract states the length only; the suggestion lemmas use its definition.
- App.SendRequestRecipients: the round trip is stated only for addresses free of whitespace, ',' and ';'. The address pattern accepts ',' and ';' (not whitespace), and ';' is not a submit key, so such an address can be in the To list; the joined field then does not give it back (App.SeparatorBreaksRecipients, RecipientInput.SeparatorAddressSplitOnSend). How the backend reads the joined field is not part of this model.
- App.App.HandleSmartReply: the generated `body` is taken to be a string. A reply without one (`undefined`) is not modelled.
- Composer.Composer.HandleGenerate: the generated `subject` and `body` are taken to be strings. The model checks neither the trimmed text nor the parsed JSON beyond success or failure.
- Inbox: messages of a page are never null. The source's `email &&` guard is therefore always true here.
- AnthropicProxy.UpstreamMapping: a reply without a `content` array throws in the source, giving 500. The model's `Replied` always has a content list, so that path is a `Threw` outcome.
- The descriptions inside the composer's response schema are left out; only property names, types and required fields are modelled.
- The draft's cells are one `DraftMessage` value held in one controller field, not eight separate cells; every setter replaces one part of it.
- The pure UI files and icons are not part of this model: components/RichTextEditor.tsx, SendButton.tsx, FirmSelector.tsx, EmailPreviewModal.tsx and AppScriptURLInput.tsx.
