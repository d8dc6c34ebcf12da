/** The SendGrid service wrapper: `sendEmail` forwards its parameters with
    the text defaulted, `sendBulkEmails` builds one message per recipient
    and makes sure every message has content, and the template helpers
    return fixed records. The mail service itself is outside this model:
    whether its `send` fails is a parameter. */
module SendGridService {
  import opened Wrappers
  import opened Values
  import opened Errors
  import opened Mail

  /** The single mail `sendEmail` hands over: the fields as given, with a
      missing text sent as the empty string. */
  datatype SimpleMail = SimpleMail(
    to: string,
    from: string,
    subject: string,
    text: string,
    html: Option<string>,
    templateId: Option<string>,
    templateData: Option<map<string, Value>>)

  datatype Template = Template(id: string)

  const SendFailed := AppError("Failed to send email", IntegrationError, 500)
  const BulkSendFailed := AppError("Failed to send bulk emails", IntegrationError, 500)

  /** The placeholder content of a message that would otherwise have none. */
  const Blank := Content(TextPlain, " ")

  /** `sendEmail`: the mail it hands to the service, and how it settles when
      the service's `send` fails or not. */
  function SendEmail(to: string, letter: Letter, sendFails: bool): (r: (SimpleMail, Result<(), AppError>))
    ensures r.0.text == letter.text.GetOr("")
    ensures letter.text.Some? ==> r.0.text == letter.text.value
    ensures r.0.to == to && r.0.from == letter.from && r.0.subject == letter.subject
    ensures r.0.html == letter.html && r.0.templateId == letter.templateId && r.0.templateData == letter.templateData
    ensures r.1.Err? <==> sendFails
    ensures r.1.Err? ==> r.1.error == SendFailed
  {
    var mail := SimpleMail(to, letter.from, letter.subject, letter.text.GetOr(""), letter.html, letter.templateId, letter.templateData);
    (mail, if sendFails then Err(SendFailed) else Ok(()))
  }

  /** A single send and a bulk send to that one recipient address the same
      message: the same recipient, sender, subject and outcome, the single
      send's text is the bulk message's text item whenever a text is given,
      and a template is passed on alike. Where the bulk send puts a blank
      placeholder, the single send passes the empty text. */
  lemma SingleAgreesWithBulk(to: string, letter: Letter, sendFails: bool)
    ensures var single := SendEmail(to, letter, sendFails).0;
            var bulk := SendBulkEmails([to], letter, sendFails);
            && |bulk.0| == 1
            && single.to == bulk.0[0].to && single.from == bulk.0[0].from && single.subject == bulk.0[0].subject
            && (SendEmail(to, letter, sendFails).1.Err? <==> bulk.1.Err?)
            && (Given(letter.text) ==> bulk.0[0].content[0] == Content(TextPlain, single.text))
            && (!Given(letter.text) && (Given(letter.templateId) || !Given(letter.html)) ==>
                  single.text == "" && bulk.0[0].content == [Blank])
            && (Given(letter.templateId) ==>
                  single.templateId == bulk.0[0].templateId && single.templateData == bulk.0[0].templateData)
  {
  }

  /** The content of a template message: the text, or a blank when it is
      missing or empty. */
  function TemplateContent(text: Option<string>): (c: seq<Content>)
    ensures |c| == 1 && c[0].kind == TextPlain
    ensures c[0].value == if Given(text) then text.value else " "
  {
    [Content(TextPlain, if Given(text) then text.value else " ")]
  }

  /** The content of a plain message: the text, then the HTML, each only if
      given, and a blank if neither is. */
  function PlainContent(text: Option<string>, html: Option<string>): (c: seq<Content>)
    ensures 1 <= |c| <= 2
    ensures |c| == 2 <==> Given(text) && Given(html)
    ensures c[0].kind == TextPlain <==> Given(text) || !Given(html)
    ensures c[|c| - 1].kind == TextHtml <==> Given(html)
    ensures Given(text) ==> c[0] == Content(TextPlain, text.value)
    ensures Given(html) ==> c[|c| - 1] == Content(TextHtml, html.value)
    ensures !Given(text) && !Given(html) ==> c == [Blank]
  {
    var withText := if Given(text) then [Content(TextPlain, text.value)] else [];
    var content := withText + if Given(html) then [Content(TextHtml, html.value)] else [];
    if |content| == 0 then [Blank] else content
  }

  /** The message `sendBulkEmails` builds for one recipient. */
  function BulkMessage(letter: Letter, recipient: string): (m: Message)
    ensures m.to == recipient && m.from == letter.from && m.subject == letter.subject
    ensures Given(letter.templateId) ==>
              m.content == TemplateContent(letter.text)
              && m.templateId == letter.templateId && m.templateData == letter.templateData
    ensures !Given(letter.templateId) ==>
              m.content == PlainContent(letter.text, letter.html) && m.templateId.None? && m.templateData.None?
  {
    if Given(letter.templateId) then
      Message(recipient, letter.from, letter.subject, TemplateContent(letter.text), letter.templateId, letter.templateData)
    else
      Message(recipient, letter.from, letter.subject, PlainContent(letter.text, letter.html), None, None)
  }

  /** `sendBulkEmails`: one message per recipient, in order, each with at
      least one content item and no empty content value. */
  function SendBulkEmails(recipients: seq<string>, letter: Letter, sendFails: bool): (r: (seq<Message>, Result<(), AppError>))
    ensures |r.0| == |recipients|
    ensures forall i :: 0 <= i < |recipients| ==> r.0[i] == BulkMessage(letter, recipients[i])
    ensures forall i :: 0 <= i < |recipients| ==> |r.0[i].content| >= 1
    ensures forall i, j :: 0 <= i < |recipients| && 0 <= j < |r.0[i].content| ==> r.0[i].content[j].value != ""
    ensures r.1.Err? <==> sendFails
    ensures r.1.Err? ==> r.1.error == BulkSendFailed
  {
    var messages := seq(|recipients|, i requires 0 <= i < |recipients| => BulkMessage(letter, recipients[i]));
    assert forall i :: 0 <= i < |recipients| ==> ContentNonEmpty(letter, recipients[i]);
    (messages, if sendFails then Err(BulkSendFailed) else Ok(()))
  }

  /** Every content item of a bulk message carries a non-empty value. */
  predicate ContentNonEmpty(letter: Letter, recipient: string) {
    var m := BulkMessage(letter, recipient);
    |m.content| >= 1 && forall j :: 0 <= j < |m.content| ==> m.content[j].value != ""
  }

  /** `getEmailTemplate`: a record for the requested id. */
  function GetEmailTemplate(templateId: string): (t: Template)
    ensures t.id == templateId
  {
    Template(templateId)
  }

  /** `createEmailTemplate`: always the same placeholder id. */
  function CreateEmailTemplate(): (t: Template)
    ensures t.id == "new-template-id"
  {
    Template("new-template-id")
  }
}
