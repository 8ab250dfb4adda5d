/** The two bodies of a templated message (sendSimpleEmail in email-service.ts).
    Each body is a fixed layout: a sequence of literal fragments and slots for
    the interpolated fields. Rendering puts each field's text into its slot
    verbatim, without any escaping. The attachment notice is a block of the
    layout that is present only when the message has attachments. The literal
    HTML keeps the element structure of the source but not its inline CSS. */
module Template {
  import opened Wrappers
  import opened JsValues
  import opened Types

  /** The interpolated fields of the template. */
  datatype Field = Name | Email | Message | AttachmentCount | Time

  /** The fixed fragments of the two layouts; their text is FragmentText. */
  datatype Fragment =
    | HtmlHead | HtmlOpen | HtmlMailtoOpen | HtmlMailtoClose | HtmlMessageOpen | HtmlMessageClose
    | HtmlNoticeOpen | HtmlNoticeClose | HtmlTimeOpen | HtmlClose
    | TextOpen | TextEmailOpen | TextMessageOpen | TextMessageClose
    | TextNoticeOpen | TextNoticeClose | TextTimeOpen | TextClose

  /** A layout piece: a fixed fragment, or the slot of one field. */
  datatype Piece = Fixed(fragment: Fragment) | Slot(field: Field)

  type Layout = seq<Piece>

  /** The values put into the slots. */
  datatype Fill = Fill(name: string, email: string, message: string, count: nat, time: string)

  /** The text a slot receives: the field as given, and the count as `${n}`. */
  function Value(f: Fill, field: Field): (v: string) {
    match field
    case Name => f.name
    case Email => f.email
    case Message => f.message
    case AttachmentCount => Decimal(f.count)
    case Time => f.time
  }

  function PieceText(p: Piece, f: Fill): (s: string) {
    match p
    case Fixed(x) => FragmentText(x)
    case Slot(field) => Value(f, field)
  }

  /** The layout with every slot filled, fragments concatenated in order. */
  function Render(t: Layout, f: Fill): (s: string)
    decreases |t|
  {
    if |t| == 0 then "" else PieceText(t[0], f) + Render(t[1..], f)
  }

  /** The fields a layout has a slot for. */
  function Slots(t: Layout): (fields: set<Field>)
    decreases |t|
  {
    if |t| == 0 then {}
    else (if t[0].Slot? then {t[0].field} else {}) + Slots(t[1..])
  }

  /** The fields every body carries, with or without the notice. */
  const CoreFields: set<Field> := {Name, Email, Message, Time}

  // ---------------------------------------------------------------------
  // The layouts

  /** The text of each fixed fragment. */
  function FragmentText(x: Fragment): (s: string) {
    match x
    case HtmlHead =>
      "<!DOCTYPE html><html><head><meta charset=\"UTF-8\">"
      + "<meta name=\"viewport\" content=\"width=device-width, initial-scale=1.0\"></head>"
    case HtmlOpen => "<body><div><h2>New Message</h2><div><p><strong>From:</strong> "
    case HtmlMailtoOpen => "</p><p><strong>Email:</strong> <a href=\"mailto:"
    case HtmlMailtoClose => "\">"
    case HtmlMessageOpen => "</a></p><div><h3>Message:</h3><p style=\"white-space: pre-wrap;\">"
    case HtmlMessageClose => "</p></div></div>"
    case HtmlNoticeOpen => "<div><strong>\U{1F4CE} Attachments:</strong> "
    case HtmlNoticeClose => " file(s)</div>"
    case HtmlTimeOpen => "<div><p>Sent via Gmail SMTP Service</p><p>Time: "
    case HtmlClose => "</p></div></div></body></html>"
    case TextOpen => "\nNew Message\n===========\n\nFrom: "
    case TextEmailOpen => "\nEmail: "
    case TextMessageOpen => "\n\nMessage:\n--------\n"
    case TextMessageClose => "\n\n"
    case TextNoticeOpen => "\nAttachments: "
    case TextNoticeClose => " file(s)\n"
    case TextTimeOpen => "\n--\nSent via Gmail SMTP Service\nTime: "
    case TextClose => "\n  "
  }

  const HtmlMain: Layout := [
    Fixed(HtmlHead), Fixed(HtmlOpen), Slot(Name),
    Fixed(HtmlMailtoOpen), Slot(Email), Fixed(HtmlMailtoClose), Slot(Email),
    Fixed(HtmlMessageOpen), Slot(Message), Fixed(HtmlMessageClose)
  ]

  const HtmlNotice: Layout := [Fixed(HtmlNoticeOpen), Slot(AttachmentCount), Fixed(HtmlNoticeClose)]

  const HtmlFooter: Layout := [Fixed(HtmlTimeOpen), Slot(Time), Fixed(HtmlClose)]

  const TextMain: Layout := [
    Fixed(TextOpen), Slot(Name),
    Fixed(TextEmailOpen), Slot(Email),
    Fixed(TextMessageOpen), Slot(Message), Fixed(TextMessageClose)
  ]

  const TextNotice: Layout := [Fixed(TextNoticeOpen), Slot(AttachmentCount), Fixed(TextNoticeClose)]

  const TextFooter: Layout := [Fixed(TextTimeOpen), Slot(Time), Fixed(TextClose)]

  /** `attachments && attachments.length > 0`. */
  predicate HasAttachments(a: Option<seq<EmailAttachment>>)
    ensures HasAttachments(a) <==> a != None && a != Some([])
  {
    a.Some? && |a.value| > 0
  }

  /** A notice block when asked for, nothing otherwise. */
  function Optional(notice: bool, block: Layout): (t: Layout) {
    if notice then block else []
  }

  function HtmlLayout(notice: bool): (t: Layout) {
    HtmlMain + Optional(notice, HtmlNotice) + HtmlFooter
  }

  function TextLayout(notice: bool): (t: Layout) {
    TextMain + Optional(notice, TextNotice) + TextFooter
  }

  /** The slot values of a templated message; the count is `attachments.length`
      and the timestamp is supplied by the caller. */
  function FillOf(o: SimpleEmailOptions, time: string): (f: Fill)
    ensures f.name == o.name && f.email == o.email && f.message == o.message && f.time == time
    ensures o.attachments.Some? ==> f.count == |o.attachments.value|
  {
    Fill(o.name, o.email, o.message,
         match o.attachments case Some(a) => |a| case None => 0,
         time)
  }

  // ---------------------------------------------------------------------
  // Rendering and slots

  /** Rendering a concatenation of layouts concatenates their renderings. */
  lemma {:induction false} RenderAppend(a: Layout, b: Layout, f: Fill)
    ensures Render(a + b, f) == Render(a, f) + Render(b, f)
    decreases |a|
  {
    if |a| == 0 {
      assert a + b == b;
    } else {
      assert (a + b)[0] == a[0];
      assert (a + b)[1..] == a[1..] + b;
      RenderAppend(a[1..], b, f);
    }
  }

  /** The slots of a concatenation are the slots of its parts. */
  lemma {:induction false} SlotsAppend(a: Layout, b: Layout)
    ensures Slots(a + b) == Slots(a) + Slots(b)
    decreases |a|
  {
    if |a| == 0 {
      assert a + b == b;
    } else {
      assert (a + b)[0] == a[0];
      assert (a + b)[1..] == a[1..] + b;
      SlotsAppend(a[1..], b);
    }
  }

  /** A field with a slot in the layout appears verbatim in the rendered text. */
  lemma {:induction false} SlotValueRendered(t: Layout, f: Fill, field: Field)
    requires field in Slots(t)
    ensures Contains(Render(t, f), Value(f, field))
    decreases |t|
  {
    var head := PieceText(t[0], f);
    var rest := Render(t[1..], f);
    if t[0] == Slot(field) {
      ContainsMiddle("", Value(f, field), rest);
      assert "" + Value(f, field) + rest == head + rest;
    } else {
      SlotValueRendered(t[1..], f, field);
      ContainsAfterPrefix(head, rest, Value(f, field));
    }
  }

  lemma HtmlMainSlots()
    ensures Slots(HtmlMain) == {Name, Email, Message}
  {
  }

  lemma HtmlPartsSlots()
    ensures Slots(HtmlMain) == {Name, Email, Message}
    ensures Slots(HtmlNotice) == {AttachmentCount}
    ensures Slots(HtmlFooter) == {Time}
  {
    HtmlMainSlots();
  }

  lemma TextPartsSlots()
    ensures Slots(TextMain) == {Name, Email, Message}
    ensures Slots(TextNotice) == {AttachmentCount}
    ensures Slots(TextFooter) == {Time}
  {
  }

  /** The slots of the HTML layout: the core fields, plus the count exactly
      when the notice is included. */
  lemma HtmlLayoutSlots(notice: bool)
    ensures Slots(HtmlLayout(notice)) == CoreFields + (if notice then {AttachmentCount} else {})
  {
    HtmlPartsSlots();
    assert Slots([]) == {};
    SlotsAppend(HtmlMain, Optional(notice, HtmlNotice));
    SlotsAppend(HtmlMain + Optional(notice, HtmlNotice), HtmlFooter);
  }

  /** The slots of the plain-text layout, likewise. */
  lemma TextLayoutSlots(notice: bool)
    ensures Slots(TextLayout(notice)) == CoreFields + (if notice then {AttachmentCount} else {})
  {
    TextPartsSlots();
    assert Slots([]) == {};
    SlotsAppend(TextMain, Optional(notice, TextNotice));
    SlotsAppend(TextMain + Optional(notice, TextNotice), TextFooter);
  }

  /** Both bodies carry the same information: the same set of fields. */
  lemma BodiesCarrySameFields(notice: bool)
    ensures Slots(HtmlLayout(notice)) == Slots(TextLayout(notice))
  {
    HtmlLayoutSlots(notice);
    TextLayoutSlots(notice);
  }

  // ---------------------------------------------------------------------
  // The bodies of a templated message

  /** The notice block as rendered: its two fixed fragments around `${n}`. */
  lemma NoticeRendering(f: Fill)
    ensures Render(HtmlNotice, f) == FragmentText(HtmlNoticeOpen) + Decimal(f.count) + FragmentText(HtmlNoticeClose)
    ensures Render(TextNotice, f) == FragmentText(TextNoticeOpen) + Decimal(f.count) + FragmentText(TextNoticeClose)
  {
  }

  /** The HTML body is the main block, then the notice block exactly when there
      are attachments, then the footer. */
  lemma HtmlBodyStructure(o: SimpleEmailOptions, time: string)
    ensures var f := FillOf(o, time);
            HtmlBody(o, time) == Render(HtmlMain, f)
                                 + (if HasAttachments(o.attachments) then Render(HtmlNotice, f) else "")
                                 + Render(HtmlFooter, f)
  {
    HtmlRenderingStructure(HasAttachments(o.attachments), FillOf(o, time));
  }

  /** The plain-text body has the same structure. */
  lemma TextBodyStructure(o: SimpleEmailOptions, time: string)
    ensures var f := FillOf(o, time);
            TextBody(o, time) == Render(TextMain, f)
                                 + (if HasAttachments(o.attachments) then Render(TextNotice, f) else "")
                                 + Render(TextFooter, f)
  {
    TextRenderingStructure(HasAttachments(o.attachments), FillOf(o, time));
  }

  /** Rendering the HTML layout renders its three blocks in order; the notice
      block contributes nothing when it is left out. */
  lemma HtmlRenderingStructure(notice: bool, f: Fill)
    ensures Render(HtmlLayout(notice), f)
            == Render(HtmlMain, f) + (if notice then Render(HtmlNotice, f) else "") + Render(HtmlFooter, f)
  {
    RenderAppend(HtmlMain, Optional(notice, HtmlNotice), f);
    RenderAppend(HtmlMain + Optional(notice, HtmlNotice), HtmlFooter, f);
    assert Render([], f) == "";
  }

  /** The same for the plain-text layout. */
  lemma TextRenderingStructure(notice: bool, f: Fill)
    ensures Render(TextLayout(notice), f)
            == Render(TextMain, f) + (if notice then Render(TextNotice, f) else "") + Render(TextFooter, f)
  {
    RenderAppend(TextMain, Optional(notice, TextNotice), f);
    RenderAppend(TextMain + Optional(notice, TextNotice), TextFooter, f);
    assert Render([], f) == "";
  }

  /** A rendered HTML layout contains every core field verbatim, and the
      notice with the count when the notice is included. */
  lemma HtmlLayoutRendering(notice: bool, f: Fill)
    ensures var s := Render(HtmlLayout(notice), f);
            Contains(s, f.name) && Contains(s, f.email) && Contains(s, f.message) && Contains(s, f.time)
    ensures notice ==> Contains(Render(HtmlLayout(notice), f),
                                FragmentText(HtmlNoticeOpen) + Decimal(f.count) + FragmentText(HtmlNoticeClose))
  {
    HtmlLayoutSlots(notice);
    SlotValueRendered(HtmlLayout(notice), f, Name);
    SlotValueRendered(HtmlLayout(notice), f, Email);
    SlotValueRendered(HtmlLayout(notice), f, Message);
    SlotValueRendered(HtmlLayout(notice), f, Time);
    if notice {
      HtmlRenderingStructure(notice, f);
      NoticeRendering(f);
      ContainsMiddle(Render(HtmlMain, f), Render(HtmlNotice, f), Render(HtmlFooter, f));
    }
  }

  /** A rendered plain-text layout contains every core field verbatim, and the
      notice with the count when the notice is included. */
  lemma TextLayoutRendering(notice: bool, f: Fill)
    ensures var s := Render(TextLayout(notice), f);
            Contains(s, f.name) && Contains(s, f.email) && Contains(s, f.message) && Contains(s, f.time)
    ensures notice ==> Contains(Render(TextLayout(notice), f),
                                FragmentText(TextNoticeOpen) + Decimal(f.count) + FragmentText(TextNoticeClose))
  {
    TextLayoutSlots(notice);
    SlotValueRendered(TextLayout(notice), f, Name);
    SlotValueRendered(TextLayout(notice), f, Email);
    SlotValueRendered(TextLayout(notice), f, Message);
    SlotValueRendered(TextLayout(notice), f, Time);
    if notice {
      TextRenderingStructure(notice, f);
      NoticeRendering(f);
      ContainsMiddle(Render(TextMain, f), Render(TextNotice, f), Render(TextFooter, f));
    }
  }

  /** The HTML body of a templated message (lines 97-131 of email-service.ts):
      it contains the name, the email, the message and the timestamp verbatim,
      and, when there are attachments, the notice stating their number. */
  function HtmlBody(o: SimpleEmailOptions, time: string): (r: string)
    ensures Contains(r, o.name) && Contains(r, o.email) && Contains(r, o.message) && Contains(r, time)
    ensures HasAttachments(o.attachments) ==>
              Contains(r, FragmentText(HtmlNoticeOpen) + Decimal(|o.attachments.value|)
                          + FragmentText(HtmlNoticeClose))
  {
    HtmlLayoutRendering(HasAttachments(o.attachments), FillOf(o, time));
    Render(HtmlLayout(HasAttachments(o.attachments)), FillOf(o, time))
  }

  /** The plain-text body (lines 134-149 of email-service.ts), with the same
      guarantees. */
  function TextBody(o: SimpleEmailOptions, time: string): (r: string)
    ensures Contains(r, o.name) && Contains(r, o.email) && Contains(r, o.message) && Contains(r, time)
    ensures HasAttachments(o.attachments) ==>
              Contains(r, FragmentText(TextNoticeOpen) + Decimal(|o.attachments.value|)
                          + FragmentText(TextNoticeClose))
  {
    TextLayoutRendering(HasAttachments(o.attachments), FillOf(o, time));
    Render(TextLayout(HasAttachments(o.attachments)), FillOf(o, time))
  }

  /** Both bodies contain the sender's name, the sender's email, the message
      and the timestamp verbatim, whatever text they hold. */
  lemma BodiesContainFields(o: SimpleEmailOptions, time: string)
    ensures Contains(HtmlBody(o, time), o.name) && Contains(TextBody(o, time), o.name)
    ensures Contains(HtmlBody(o, time), o.email) && Contains(TextBody(o, time), o.email)
    ensures Contains(HtmlBody(o, time), o.message) && Contains(TextBody(o, time), o.message)
    ensures Contains(HtmlBody(o, time), time) && Contains(TextBody(o, time), time)
  {
  }

  /** Each body has a slot for the attachment count if and only if the message
      has attachments (present and non-empty). */
  lemma NoticeIffAttachments(o: SimpleEmailOptions)
    ensures AttachmentCount in Slots(HtmlLayout(HasAttachments(o.attachments)))
            <==> o.attachments.Some? && |o.attachments.value| > 0
    ensures AttachmentCount in Slots(TextLayout(HasAttachments(o.attachments)))
            <==> o.attachments.Some? && |o.attachments.value| > 0
  {
    HtmlLayoutSlots(HasAttachments(o.attachments));
    TextLayoutSlots(HasAttachments(o.attachments));
  }

  /** With attachments, each body contains the notice stating the number of
      attachments, and that number reads back as exactly `attachments.length`. */
  lemma NoticeStatesCount(o: SimpleEmailOptions, time: string)
    requires o.attachments.Some? && |o.attachments.value| > 0
    ensures var n := |o.attachments.value|;
            && Contains(HtmlBody(o, time),
                        FragmentText(HtmlNoticeOpen) + Decimal(n) + FragmentText(HtmlNoticeClose))
            && Contains(TextBody(o, time),
                        FragmentText(TextNoticeOpen) + Decimal(n) + FragmentText(TextNoticeClose))
            && ParseDecimal(Decimal(n)) == n
  {
    DecimalRoundTrip(|o.attachments.value|);
  }
}
