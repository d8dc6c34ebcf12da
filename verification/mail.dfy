/** The mail records both SendGrid wrappers build: the sender's parameters
    and the per-recipient message with its content items. Optional string
    parameters are `Option`s; like JavaScript, the code treats an empty
    string as absent wherever it tests a parameter's truthiness. */
module Mail {
  import opened Wrappers
  import opened Values

  datatype ContentType = TextPlain | TextHtml

  datatype Content = Content(kind: ContentType, value: string)

  /** What a caller supplies besides the recipients. */
  datatype Letter = Letter(
    from: string,
    subject: string,
    text: Option<string>,
    html: Option<string>,
    templateId: Option<string>,
    templateData: Option<map<string, Value>>)

  /** One message as handed to the mail service. */
  datatype Message = Message(
    to: string,
    from: string,
    subject: string,
    content: seq<Content>,
    templateId: Option<string>,
    templateData: Option<map<string, Value>>)

  /** A string parameter that is present and non-empty. */
  predicate Given(s: Option<string>) {
    s.Some? && s.value != ""
  }
}
