/** The records shared by the components: a sending firm, an attachment carried as base64,
    and an inbox message as the mail backend returns it. */
module Types {
  import opened Wrappers

  /** A sending identity; only some firms carry a GSTIN (tax id). */
  datatype Firm = Firm(name: string, gstin: Option<string>, address: string, mobile: string)

  /** A file ready for transport: `data` is the base64 payload of the file without the
      `data:<mime>;base64,` prefix of its data URL. */
  datatype AttachmentFile = AttachmentFile(filename: string, mimeType: string, data: string)

  /** One message of the inbox. `from` is `None` when the backend sent no string there;
      `threadId` is present only for messages that belong to a thread. */
  datatype EmailData = EmailData(
    id: string,
    from: Option<string>,
    subject: string,
    date: string,
    body: string,
    threadId: Option<string>)
}
