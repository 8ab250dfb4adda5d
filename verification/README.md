# Gmail mailer: a verified functional model

This project models the message-building core of a small TypeScript email
service that sends transactional mail through Gmail's SMTP relay
(`email-service.ts`, with the record shapes of `types.ts`). The core has three
parts:

- the advisory configuration check (`checkEmailConfig`);
- the direct send (`sendEmail`), which builds the options object handed to the
  relay library and turns the relay's answer into a result;
- the templated send (`sendSimpleEmail`, and its fixed instance
  `sendTestEmail`), which renders an HTML and a plain-text body from a
  sender's name, email and message and routes the mail through a recipient
  fallback chain.

Everything is modelled as pure functions over immutable records:

- `Types` holds the records of `types.ts` (`EmailConfig`, `EmailResult`,
  `EmailAttachment`, `EmailData`, `SimpleEmailOptions`) and an explicit
  environment record `Env` in place of `process.env`. Each variable is an
  `Option<string>`, because it may be unset.
- `JsValues` holds the JavaScript semantics the code relies on:
  - truthiness, where an unset variable and the empty string are both falsy;
  - the `||` operator;
  - `${...}` interpolation, where an unset variable renders as the text `undefined`;
  - decimal rendering of a number, with its parse-back.

  The module also defines substring containment. The code never calls it;
  it is the predicate in which the properties of the bodies are stated.
- `Config` models `checkEmailConfig`.
- `Mailer` models `sendEmail`. The relay is a parameter: a total function from
  the submitted `MailOptions` to `Ack(messageId)` or `Fail(error)`. A thrown
  error becomes `Failure(error)` of a `Result`.
- `Template` models the two bodies. Each body is a layout: a sequence of fixed
  fragments and slots for the interpolated fields. The attachment notice is a
  block of the layout that is included only when there are attachments.
  Rendering puts each field's text into its slot verbatim, with no escaping.
- `SimpleEmail` models `sendSimpleEmail` and `sendTestEmail`. The timestamp is
  a parameter.

## Behaviour of the code worth knowing

- The `recipient` entry of the configuration report is derived from
  `GMAIL_USER`, not from `DEFAULT_RECIPIENT`.
- The identifier of a successful send is whatever the relay returned. It is
  not checked to be non-empty.
- A direct send does modify the caller's message in one way: it fills in the
  default sender.
- When `GMAIL_USER` is unset, the default sender is `"Email Service" <undefined>`.

## Model

| member | source | states |
|---|---|---|
| Config.StatusOf | email-service.ts:18-20 | a credential's status is OK exactly when the variable is set to a non-empty string |
| Config.CheckEmailConfig | email-service.ts:16-35 | the check never fails; the user status is OK iff GMAIL_USER is set and non-empty, the password status is OK iff GMAIL_APP_PASSWORD is; the recipient status equals the user status; it returns true iff both credentials are set and non-empty, which is iff both statuses are OK, and when false at least one of them is reported MISSING |
| Config.CheckIgnoresDefaultRecipient | email-service.ts:17-23 | changing DEFAULT_RECIPIENT changes neither the report nor the verdict |
| Config.CheckDependsOnlyOnPresence | email-service.ts:17-23 | two environments whose credentials agree on truthiness get the same report |
| JsValues.Truthy | email-service.ts:18-19 | a string-or-undefined value is falsy exactly when it is undefined or the empty string |
| JsValues.Or | email-service.ts:152 | `a \|\| b` yields a when a is truthy and b otherwise; the result is truthy iff either operand is |
| JsValues.OrElse | email-service.ts:60 | `a \|\| d` with a literal fallback yields a's string when it is truthy, else d |
| JsValues.Interpolate | email-service.ts:60 | `${v}` is v's text when set and the text "undefined" when unset |
| JsValues.Decimal | email-service.ts:120 | `${n}` is a non-empty run of decimal digits, one digit long exactly when n < 10, with no leading zero |
| JsValues.DecimalRoundTrip | email-service.ts:120 | reading the rendered count back gives exactly n |
| JsValues.DecimalInjective | email-service.ts:145 | different counts render as different texts |
| Mailer.DefaultFrom | email-service.ts:60 | the default sender is `"Email Service" <GMAIL_USER>`, or `"Email Service" <undefined>` when the variable is unset |
| Mailer.ResolveFrom | email-service.ts:60 | the sender is the caller's `from` when it is non-empty, else the default sender |
| Mailer.MapAttachments | email-service.ts:66-70 | the mapped list has the same length and, position by position, the same filename, content and content type |
| Mailer.MapOptionalAttachments | email-service.ts:66 | absent attachments stay absent; a present list keeps its length and reads back entry by entry as the caller's list |
| Mailer.BuildMailOptions | email-service.ts:59-71 | `from` is the caller's sender iff it is truthy, else the default; `to`, `subject`, `html`, `text` and `replyTo` pass through unchanged; attachments are present iff the caller gave some |
| Mailer.SendEmail | email-service.ts:73-84 | the send succeeds iff the relay acknowledges the built options; success carries `success = true` and the relay's message id; a relay failure yields no result and exactly the relay's error |
| Mailer.AttachmentsRoundTrip | email-service.ts:66-70 | reading the mapped attachments back gives the caller's list |
| Mailer.MapAttachmentsAppend | email-service.ts:66-70 | the mapping distributes over concatenation, so order is preserved |
| Mailer.MapAttachmentsInjective | email-service.ts:66-70 | two attachment lists map to the same list iff they are equal |
| Mailer.MailOptionsPreserveData | email-service.ts:59-71 | every field of the caller's message other than the sender can be read back from the submitted options |
| Mailer.MailOptionsIndependentOfEnv | email-service.ts:60 | the environment affects the options only through the default sender |
| Template.HasAttachments | email-service.ts:118 | `attachments && attachments.length > 0` holds exactly when the list is present and not empty |
| Template.HtmlLayoutRendering | email-service.ts:97-131 | a rendered HTML layout contains name, email, message and time verbatim, and the notice with the decimal count when the notice is included |
| Template.TextLayoutRendering | email-service.ts:134-149 | the same for the plain-text layout |
| Template.HtmlBody | email-service.ts:97-131 | the HTML body contains the name, the email, the message and the timestamp verbatim, and with attachments the notice stating their number |
| Template.TextBody | email-service.ts:134-149 | the plain-text body gives the same guarantees |
| Template.FillOf | email-service.ts:94 | the slot values are the caller's name, email and message, the supplied timestamp, and the number of attachments |
| Template.SlotValueRendered | email-service.ts:109-114 | a field that has a slot in a layout occurs verbatim in the rendered text |
| Template.HtmlPartsSlots | email-service.ts:97-131 | the main HTML block has slots for name, email and message; the notice has a slot for the count; the footer has one for the time |
| Template.TextPartsSlots | email-service.ts:134-149 | the same for the plain-text blocks |
| Template.HtmlLayoutSlots | email-service.ts:97-131 | the HTML layout has slots for name, email, message and time, plus the count iff the notice is included |
| Template.TextLayoutSlots | email-service.ts:134-149 | the plain-text layout has the same slots |
| Template.BodiesCarrySameFields | email-service.ts:97-149 | the HTML and the plain-text body carry the same set of fields |
| Template.NoticeRendering | email-service.ts:118-122 | the rendered notice block is its opening fragment, the decimal count, then its closing fragment, in both bodies |
| Template.HtmlBodyStructure | email-service.ts:97-131 | the HTML body is the main block, then the notice iff attachments are present and non-empty, then the footer |
| Template.TextBodyStructure | email-service.ts:134-149 | the plain-text body has the same structure |
| Template.BodiesContainFields | email-service.ts:109-148 | both bodies contain the name, the email, the message and the timestamp verbatim, for any text in them |
| Template.NoticeIffAttachments | email-service.ts:118-145 | both bodies have an attachment-count slot iff attachments are present and non-empty |
| Template.NoticeStatesCount | email-service.ts:118-145 | with attachments, both bodies contain the notice with the decimal count, and that count reads back as exactly `attachments.length` |
| SimpleEmail.Recipient | email-service.ts:152 | the recipient is DEFAULT_RECIPIENT when non-empty, else GMAIL_USER when non-empty, else "" |
| SimpleEmail.RecipientEmptyIff | email-service.ts:152 | the recipient is empty iff neither variable is set to a non-empty value |
| SimpleEmail.RecipientIndependence | email-service.ts:152 | the recipient never depends on the app password, and it does not depend on GMAIL_USER when DEFAULT_RECIPIENT is non-empty |
| SimpleEmail.ComposeSimpleEmail | email-service.ts:93-158 | the composed message replies to the supplied email, leaves the sender unset, forwards subject and attachments, and both bodies contain name, email and message |
| SimpleEmail.SendSimpleEmail | email-service.ts:151-158 | a templated send succeeds iff the relay acknowledges the composed options; it then carries the relay's id, and otherwise fails with the relay's error |
| SimpleEmail.SimpleEmailRouting | email-service.ts:151-158 | the relay receives the fallback recipient, reply-to equal to the supplied email, the default sender, and the subject, bodies and attachments unchanged |
| SimpleEmail.SendTestEmail | email-service.ts:164-173 | the test send succeeds iff the relay acknowledges the test message's options; success carries `success = true` and the relay's id, and failure carries exactly the relay's error |
| SimpleEmail.TestEmailBodies | email-service.ts:167-172 | the test message has no attachment notice, and both bodies name the test user and the test address |
| SimpleEmail.ContactFormScenario | examples.ts:36-41 | the contact-form message without attachments carries name, email and message in both bodies and has no notice |
| SimpleEmail.TwoAttachmentsScenario | examples.ts:66-87 | with two attachments, both bodies contain a notice that says "2" |

## Left out

- `createTransporter` and the relay's `sendMail` belong to the nodemailer library and the SMTP relay. The session descriptor is not modelled. The relay is a function parameter from the submitted options to its outcome.
- Reading `process.env` is replaced by the explicit `Env` record.
- Console output (warnings, success and failure logs) is not modelled, since it does not affect any returned value.
- The async/Promise plumbing is not modelled. A thrown error is a `Failure` result.
- The clock read `new Date().toLocaleString()` becomes a timestamp string parameter. The source reads the clock once per body, so the two texts could differ by a tick; the model uses one timestamp for both.
- Attachment content is an opaque byte sequence, not a Node `Buffer`.
- The inline CSS and exact whitespace of the HTML template are abbreviated: `style` attributes are dropped except the one that preserves the message's line breaks. The model keeps the elements, the order of the fixed text, the placement of every interpolated field and the conditional notice. The plain-text template keeps the source's text.
- Strings are sequences of Unicode scalar values, while JavaScript strings are UTF-16 code units. The two differ only for text holding a lone surrogate, which the model cannot represent.
- `examples.ts` is a command-line dispatcher: it loads a dotenv file, exits the process and prints hints. Only two of its canned messages appear, as scenario lemmas.
- Mailer.SendEmail: does not promise a non-empty message id, because the code forwards whatever identifier the relay returns.
