/** The direct send of email-service.ts (sendEmail): the mail options handed to
    the relay, and the mapping of the relay's outcome to a result. The relay is
    a parameter: a total function from the submitted options to its outcome. */
module Mailer {
  import opened Wrappers
  import opened JsValues
  import opened Types

  /** An attachment as the relay library receives it: a fresh object that
      carries exactly the three fields copied from the caller's attachment. */
  datatype MailAttachment = MailAttachment(filename: string, content: seq<byte>, contentType: string)

  /** The options object submitted to the relay. `from` is always set; the
      other optional entries stay undefined when the caller left them so. */
  datatype MailOptions = MailOptions(
    from: string,
    to: string,
    subject: string,
    html: string,
    text: string,
    replyTo: Option<string>,
    attachments: Option<seq<MailAttachment>>)

  /** What the relay answers: an acknowledgement with the identifier it
      assigned, or the error it raised. */
  datatype RelayOutcome = Ack(messageId: string) | Fail(error: string)

  type Relay = MailOptions -> RelayOutcome

  /** The sender used when the caller gives none: the fixed display name
      followed by the account variable in angle brackets. */
  function DefaultFrom(gmailUser: Option<string>): (r: string)
    ensures gmailUser.Some? ==> r == "\"Email Service\" <" + gmailUser.value + ">"
    ensures gmailUser.None? ==> r == "\"Email Service\" <undefined>"
  {
    "\"Email Service\" <" + Interpolate(gmailUser) + ">"
  }

  /** `emailData.from || <default sender>`. */
  function ResolveFrom(from: Option<string>, env: Env): (r: string)
    ensures from.Some? && |from.value| > 0 ==> r == from.value
    ensures from.None? || from.value == "" ==> r == DefaultFrom(env.gmailUser)
  {
    OrElse(from, DefaultFrom(env.gmailUser))
  }

  function ToMailAttachment(a: EmailAttachment): (m: MailAttachment) {
    MailAttachment(a.filename, a.content, a.contentType)
  }

  function FromMailAttachment(m: MailAttachment): (a: EmailAttachment) {
    EmailAttachment(m.filename, m.content, m.contentType)
  }

  /** `attachments.map(att => ({ filename, content, contentType }))`: same
      length, same order, each entry copied field by field. */
  function MapAttachments(atts: seq<EmailAttachment>): (r: seq<MailAttachment>)
    ensures |r| == |atts|
    ensures forall i :: 0 <= i < |atts| ==>
              && r[i].filename == atts[i].filename
              && r[i].content == atts[i].content
              && r[i].contentType == atts[i].contentType
  {
    if |atts| == 0 then [] else [ToMailAttachment(atts[0])] + MapAttachments(atts[1..])
  }

  /** The inverse reading of the mapping, used to state that it loses nothing. */
  function UnmapAttachments(ms: seq<MailAttachment>): (r: seq<EmailAttachment>)
    ensures |r| == |ms|
  {
    if |ms| == 0 then [] else [FromMailAttachment(ms[0])] + UnmapAttachments(ms[1..])
  }

  /** `emailData.attachments?.map(...)`: undefined stays undefined, and a
      present list is copied entry by entry (it reads back unchanged). */
  function MapOptionalAttachments(atts: Option<seq<EmailAttachment>>): (r: Option<seq<MailAttachment>>)
    ensures r.Some? <==> atts.Some?
    ensures atts.Some? ==> |r.value| == |atts.value|
    ensures atts.Some? ==> UnmapAttachments(r.value) == atts.value
  {
    match atts
    case None => None
    case Some(a) => AttachmentsRoundTrip(a); Some(MapAttachments(a))
  }

  /** The options object built by sendEmail. */
  function BuildMailOptions(data: EmailData, env: Env): (o: MailOptions)
    ensures Truthy(data.from) ==> o.from == data.from.value
    ensures !Truthy(data.from) ==> o.from == DefaultFrom(env.gmailUser)
    ensures o.to == data.to && o.subject == data.subject
    ensures o.html == data.html && o.text == data.text
    ensures o.replyTo == data.replyTo
    ensures o.attachments.Some? <==> data.attachments.Some?
  {
    MailOptions(
      ResolveFrom(data.from, env),
      data.to,
      data.subject,
      data.html,
      data.text,
      data.replyTo,
      MapOptionalAttachments(data.attachments))
  }

  /** sendEmail: submit the options once; an acknowledgement becomes a
      successful result carrying the relay's identifier, and a relay error is
      rethrown as it is. */
  function SendEmail(data: EmailData, env: Env, relay: Relay): (r: Result<EmailResult, string>)
    ensures r.Success? <==> relay(BuildMailOptions(data, env)).Ack?
    ensures r.Success? ==> r.value.success
    ensures r.Success? ==> r.value.messageId == relay(BuildMailOptions(data, env)).messageId
    ensures r.Failure? ==> r.error == relay(BuildMailOptions(data, env)).error
  {
    match relay(BuildMailOptions(data, env))
    case Ack(id) => Success(EmailResult(true, id))
    case Fail(e) => Failure(e)
  }

  // ---------------------------------------------------------------------
  // Properties of the attachment mapping

  /** Mapping and then reading back returns the caller's attachments. */
  lemma {:induction false} AttachmentsRoundTrip(atts: seq<EmailAttachment>)
    ensures UnmapAttachments(MapAttachments(atts)) == atts
    decreases |atts|
  {
    if |atts| > 0 {
      AttachmentsRoundTrip(atts[1..]);
      assert MapAttachments(atts)[1..] == MapAttachments(atts[1..]);
    }
  }

  /** Mapping a concatenation maps each part in place: order is preserved. */
  lemma MapAttachmentsAppend(a: seq<EmailAttachment>, b: seq<EmailAttachment>)
    ensures MapAttachments(a + b) == MapAttachments(a) + MapAttachments(b)
  {
  }

  /** Two different attachment lists never reach the relay as the same list. */
  lemma MapAttachmentsInjective(a: seq<EmailAttachment>, b: seq<EmailAttachment>)
    ensures MapAttachments(a) == MapAttachments(b) <==> a == b
  {
    if MapAttachments(a) == MapAttachments(b) {
      AttachmentsRoundTrip(a);
      AttachmentsRoundTrip(b);
    }
  }

  /** Every field of the caller's message except the sender can be read back
      from the submitted options, and the sender is the caller's own when it is
      non-empty. */
  lemma MailOptionsPreserveData(data: EmailData, env: Env)
    ensures var o := BuildMailOptions(data, env);
            var back := EmailData(o.to, o.subject, o.html, o.text, data.from, o.replyTo,
                                  match o.attachments
                                  case None => None
                                  case Some(ms) => Some(UnmapAttachments(ms)));
            back == data
  {
    if data.attachments.Some? {
      AttachmentsRoundTrip(data.attachments.value);
    }
  }

  /** The environment influences the options only through the default sender,
      so a caller that names a sender gets the same options in every environment. */
  lemma MailOptionsIndependentOfEnv(data: EmailData, e1: Env, e2: Env)
    requires Truthy(data.from) || e1.gmailUser == e2.gmailUser
    ensures BuildMailOptions(data, e1) == BuildMailOptions(data, e2)
  {
  }
}
