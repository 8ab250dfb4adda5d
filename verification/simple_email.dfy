/** The templated send of email-service.ts (sendSimpleEmail) and its fixed
    instance (sendTestEmail). The timestamp that the source takes from the
    clock is a parameter. */
module SimpleEmail {
  import opened Wrappers
  import opened JsValues
  import opened Types
  import opened Mailer
  import opened Template

  /** `DEFAULT_RECIPIENT || GMAIL_USER || ''`: the configured default recipient,
      else the relay account itself, else the empty string. */
  function Recipient(env: Env): (to: string)
    ensures Truthy(env.defaultRecipient) ==> to == env.defaultRecipient.value
    ensures !Truthy(env.defaultRecipient) && Truthy(env.gmailUser) ==> to == env.gmailUser.value
    ensures !Truthy(env.defaultRecipient) && !Truthy(env.gmailUser) ==> to == ""
  {
    OrElse(Or(env.defaultRecipient, env.gmailUser), "")
  }

  /** The message data sendSimpleEmail hands to sendEmail: replies go to the
      supplied email, the sender is left to the default, and both bodies carry
      the sender's name, email and message verbatim. */
  function ComposeSimpleEmail(o: SimpleEmailOptions, env: Env, time: string): (d: EmailData)
    ensures d.replyTo == Some(o.email) && d.from.None?
    ensures d.subject == o.subject && d.attachments == o.attachments
    ensures Contains(d.html, o.name) && Contains(d.html, o.email) && Contains(d.html, o.message)
    ensures Contains(d.text, o.name) && Contains(d.text, o.email) && Contains(d.text, o.message)
  {
    EmailData(
      Recipient(env),
      o.subject,
      HtmlBody(o, time),
      TextBody(o, time),
      None,
      Some(o.email),
      o.attachments)
  }

  /** sendSimpleEmail: compose, then send directly. */
  function SendSimpleEmail(o: SimpleEmailOptions, env: Env, time: string, relay: Relay)
    : (r: Result<EmailResult, string>)
    ensures r.Success? <==> relay(BuildMailOptions(ComposeSimpleEmail(o, env, time), env)).Ack?
    ensures r.Success? ==> r.value == EmailResult(true, relay(BuildMailOptions(ComposeSimpleEmail(o, env, time), env)).messageId)
    ensures r.Failure? ==> r.error == relay(BuildMailOptions(ComposeSimpleEmail(o, env, time), env)).error
  {
    var d := ComposeSimpleEmail(o, env, time);
    SendEmail(d, env, relay)
  }

  /** The fields of the test message of sendTestEmail. */
  const TestOptions := SimpleEmailOptions(
    "Test User",
    "test@example.com",
    "Test Email - Gmail SMTP Service",
    "This is a test email to verify that the Gmail SMTP service is working correctly.\n\n"
    + "If you receive this email, your configuration is correct!",
    None)

  /** sendTestEmail: a templated send of the fixed test message. */
  function SendTestEmail(env: Env, time: string, relay: Relay): (r: Result<EmailResult, string>)
    ensures r.Success? <==> relay(BuildMailOptions(ComposeSimpleEmail(TestOptions, env, time), env)).Ack?
    ensures r.Success? ==> r.value == EmailResult(true, relay(BuildMailOptions(ComposeSimpleEmail(TestOptions, env, time), env)).messageId)
    ensures r.Failure? ==> r.error == relay(BuildMailOptions(ComposeSimpleEmail(TestOptions, env, time), env)).error
  {
    SendSimpleEmail(TestOptions, env, time, relay)
  }

  // ---------------------------------------------------------------------
  // What reaches the relay

  /** The options of a templated send as the relay receives them: the
      recipient follows the fallback chain, replies go to the supplied sender
      email, the sender is the default one, and subject, bodies and attachments
      are forwarded unchanged. */
  lemma SimpleEmailRouting(o: SimpleEmailOptions, env: Env, time: string)
    ensures var m := BuildMailOptions(ComposeSimpleEmail(o, env, time), env);
            && (Truthy(env.defaultRecipient) ==> m.to == env.defaultRecipient.value)
            && (!Truthy(env.defaultRecipient) && Truthy(env.gmailUser) ==> m.to == env.gmailUser.value)
            && (!Truthy(env.defaultRecipient) && !Truthy(env.gmailUser) ==> m.to == "")
            && m.replyTo == Some(o.email)
            && m.from == DefaultFrom(env.gmailUser)
            && m.subject == o.subject
            && m.attachments == MapOptionalAttachments(o.attachments)
            && m.html == HtmlBody(o, time)
            && m.text == TextBody(o, time)
  {
  }

  /** The recipient is empty exactly when neither variable is set to a
      non-empty value. */
  lemma RecipientEmptyIff(env: Env)
    ensures Recipient(env) == "" <==> !Truthy(env.defaultRecipient) && !Truthy(env.gmailUser)
  {
  }

  /** The recipient does not depend on the app password, and a non-empty
      default recipient makes it independent of the account as well. */
  lemma RecipientIndependence(env: Env, user: Option<string>, password: Option<string>)
    ensures Recipient(env.(gmailAppPassword := password)) == Recipient(env)
    ensures Truthy(env.defaultRecipient) ==> Recipient(env.(gmailUser := user)) == Recipient(env)
  {
  }

  // ---------------------------------------------------------------------
  // Fixed instances

  /** The test message has no attachment notice, and both bodies name the test
      user and the test address. */
  lemma TestEmailBodies(time: string)
    ensures AttachmentCount !in Slots(HtmlLayout(HasAttachments(TestOptions.attachments)))
    ensures AttachmentCount !in Slots(TextLayout(HasAttachments(TestOptions.attachments)))
    ensures Contains(HtmlBody(TestOptions, time), "Test User")
    ensures Contains(HtmlBody(TestOptions, time), "test@example.com")
    ensures Contains(TextBody(TestOptions, time), "Test User")
    ensures Contains(TextBody(TestOptions, time), "test@example.com")
  {
    NoticeIffAttachments(TestOptions);
    BodiesContainFields(TestOptions, time);
  }

  const ContactMessage := "Hello!\n\nThis is a message from your contact form.\n\nBest regards,\nJohn"

  /** A contact-form message without attachments: both bodies carry name,
      email and message, and neither has a notice. */
  lemma ContactFormScenario(time: string)
    ensures var o := SimpleEmailOptions("John Doe", "john.doe@example.com", "Contact Form Submission",
                                        ContactMessage, None);
            && Contains(HtmlBody(o, time), "John Doe")
            && Contains(HtmlBody(o, time), "john.doe@example.com")
            && Contains(TextBody(o, time), "John Doe")
            && Contains(TextBody(o, time), "john.doe@example.com")
            && Contains(HtmlBody(o, time), ContactMessage)
            && Contains(TextBody(o, time), ContactMessage)
            && AttachmentCount !in Slots(HtmlLayout(HasAttachments(o.attachments)))
            && AttachmentCount !in Slots(TextLayout(HasAttachments(o.attachments)))
  {
    var o := SimpleEmailOptions("John Doe", "john.doe@example.com", "Contact Form Submission",
                                ContactMessage, None);
    BodiesContainFields(o, time);
    NoticeIffAttachments(o);
  }

  /** Two attachments: both bodies contain a notice that says "2". */
  lemma TwoAttachmentsScenario(o: SimpleEmailOptions, time: string)
    requires o.attachments.Some? && |o.attachments.value| == 2
    ensures Contains(HtmlBody(o, time), FragmentText(HtmlNoticeOpen) + "2" + FragmentText(HtmlNoticeClose))
    ensures Contains(TextBody(o, time), FragmentText(TextNoticeOpen) + "2" + FragmentText(TextNoticeClose))
  {
    NoticeStatesCount(o, time);
    assert Decimal(2) == "2";
  }
}
