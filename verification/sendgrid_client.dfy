/** The SendGrid client wrapper: both sends refuse a letter without text
    and without HTML before building anything, put exactly one content item
    in each message, and attach the template fields only under a template
    id. The mail service's `send` is outside this model. */
module SendGridClient {
  import opened Wrappers
  import opened Mail

  const NoContent := "Either text or html content must be provided."

  /** The one content item: the text when it is given, the HTML otherwise. */
  function SingleContent(letter: Letter): (c: Content)
    requires Given(letter.text) || Given(letter.html)
    ensures Given(letter.text) ==> c == Content(TextPlain, letter.text.value)
    ensures !Given(letter.text) ==> c == Content(TextHtml, letter.html.value)
    ensures c.value != ""
  {
    if Given(letter.text) then Content(TextPlain, letter.text.value) else Content(TextHtml, letter.html.value)
  }

  /** The message for one recipient. */
  function ClientMessage(letter: Letter, recipient: string): (m: Message)
    requires Given(letter.text) || Given(letter.html)
    ensures m.to == recipient && m.from == letter.from && m.subject == letter.subject
    ensures m.content == [SingleContent(letter)]
    ensures m.templateId.Some? <==> Given(letter.templateId)
    ensures m.templateId.Some? ==> m.templateId == letter.templateId
    ensures m.templateData.Some? <==> Given(letter.templateId) && letter.templateData.Some?
    ensures m.templateData.Some? ==> m.templateData == letter.templateData
  {
    var base := Message(recipient, letter.from, letter.subject, [SingleContent(letter)], None, None);
    if Given(letter.templateId) then
      if letter.templateData.Some? then base.(templateId := letter.templateId, templateData := letter.templateData)
      else base.(templateId := letter.templateId)
    else base
  }

  /** `sendEmail`: the message it sends, or the error it throws first. */
  function SendEmail(to: string, letter: Letter): (r: Result<Message, string>)
    ensures r.Err? <==> !Given(letter.text) && !Given(letter.html)
    ensures r.Err? ==> r.error == NoContent
    ensures r.Ok? ==> r.value == ClientMessage(letter, to)
  {
    if !Given(letter.text) && !Given(letter.html) then Err(NoContent)
    else Ok(ClientMessage(letter, to))
  }

  /** `sendBulkEmails`: one message per recipient, in order, or the same
      error as `sendEmail` before any message is built. */
  function SendBulkEmails(recipients: seq<string>, letter: Letter): (r: Result<seq<Message>, string>)
    ensures r.Err? <==> !Given(letter.text) && !Given(letter.html)
    ensures r.Err? ==> r.error == NoContent
    ensures r.Ok? ==> |r.value| == |recipients|
    ensures r.Ok? ==> forall i :: 0 <= i < |recipients| ==> r.value[i] == ClientMessage(letter, recipients[i])
  {
    if !Given(letter.text) && !Given(letter.html) then Err(NoContent)
    else Ok(seq(|recipients|, i requires 0 <= i < |recipients| => ClientMessage(letter, recipients[i])))
  }

  /** The bulk send builds for each recipient exactly the message a single
      send to that recipient builds, and fails exactly when it fails. */
  lemma BulkIsSingleSends(recipients: seq<string>, letter: Letter)
    ensures forall to :: SendBulkEmails(recipients, letter).Err? <==> SendEmail(to, letter).Err?
    ensures SendBulkEmails(recipients, letter).Ok? ==>
              forall i :: 0 <= i < |recipients| ==> SendEmail(recipients[i], letter) == Ok(SendBulkEmails(recipients, letter).value[i])
  {
  }

  /** Messages to different recipients differ only in the recipient. */
  lemma SameContentForAll(recipients: seq<string>, letter: Letter)
    requires SendBulkEmails(recipients, letter).Ok?
    ensures var ms := SendBulkEmails(recipients, letter).value;
            forall i, j :: 0 <= i < |ms| && 0 <= j < |ms| ==> ms[i].(to := ms[j].to) == ms[j]
  {
  }
}
