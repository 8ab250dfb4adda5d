/** The records exchanged by the email service (types.ts), plus the slice of
    the process environment the service reads. */
module Types {
  import opened Wrappers

  /** One octet of attachment content; the content itself is opaque. */
  newtype byte = x: int | 0 <= x < 256

  /** A status marker of the configuration report: 'OK' or 'MISSING'. */
  datatype Status = Ok | Missing

  /** Which credentials the environment provides (EmailConfig). */
  datatype EmailConfig = EmailConfig(user: Status, password: Status, recipient: Status)

  /** What a send returns on acknowledgement (EmailResult). */
  datatype EmailResult = EmailResult(success: bool, messageId: string)

  /** A file attached to a message (EmailAttachment); `content` is the raw bytes. */
  datatype EmailAttachment = EmailAttachment(filename: string, content: seq<byte>, contentType: string)

  /** A fully specified message (EmailData); `from`, `replyTo` and `attachments`
      may be left undefined by the caller. */
  datatype EmailData = EmailData(
    to: string,
    subject: string,
    html: string,
    text: string,
    from: Option<string>,
    replyTo: Option<string>,
    attachments: Option<seq<EmailAttachment>>)

  /** The semantic fields of a templated message (SimpleEmailOptions). */
  datatype SimpleEmailOptions = SimpleEmailOptions(
    name: string,
    email: string,
    subject: string,
    message: string,
    attachments: Option<seq<EmailAttachment>>)

  /** The environment variables the service reads; each may be unset. */
  datatype Env = Env(
    gmailUser: Option<string>,
    gmailAppPassword: Option<string>,
    defaultRecipient: Option<string>)
}
