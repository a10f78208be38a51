/**
 * The consultation form: its record, its change events, what
 * `validateConsultationForm` reports, and the WhatsApp message that
 * `handleConsultationSubmit` builds.
 */
module ConsultationForm {
  import opened Wrappers
  import opened Text
  import opened FormErrors
  import opened Files
  import opened Messages

  datatype TextField = FullName | Email | Phone | Topic | OtherTopic | Description {
    /** The input's `name` attribute, which is also its error key. */
    function Key(): string {
      match this
      case FullName => "fullName"
      case Email => "email"
      case Phone => "phone"
      case Topic => "topic"
      case OtherTopic => "otherTopic"
      case Description => "description"
    }
  }

  /** The state record `consultationData`. */
  datatype ConsultationData = ConsultationData(
    fullName: string, email: string, phone: string, wantsWhatsApp: bool,
    topic: string, otherTopic: string, description: string,
    attachment: Option<Attachment>)
  {
    function Get(f: TextField): string {
      match f
      case FullName => fullName
      case Email => email
      case Phone => phone
      case Topic => topic
      case OtherTopic => otherTopic
      case Description => description
    }

    /** `{ ...prev, [name]: value }` for a text input or the topic select. */
    function Set(f: TextField, v: string): (r: ConsultationData)
      ensures r.Get(f) == v
      ensures forall g: TextField | g != f :: r.Get(g) == Get(g)
      ensures r.wantsWhatsApp == wantsWhatsApp && r.attachment == attachment
    {
      match f
      case FullName => this.(fullName := v)
      case Email => this.(email := v)
      case Phone => this.(phone := v)
      case Topic => this.(topic := v)
      case OtherTopic => this.(otherTopic := v)
      case Description => this.(description := v)
    }
  }

  /** The record the form starts with and is reset to. */
  const EMPTY: ConsultationData := ConsultationData("", "", "", false, "", "", "", None)

  /** One change event: a text input or the topic select writes its value,
      the `wantsWhatsApp` checkbox its checked state, and the `attachment`
      file input the list of picked files. */
  datatype Change =
    | TextChange(field: TextField, value: string)
    | WhatsAppChange(checked: bool)
    | FileChange(files: seq<Attachment>)
  {
    /** `e.target.name`. */
    function Name(): string {
      match this
      case TextChange(f, _) => f.Key()
      case WhatsAppChange(_) => "wantsWhatsApp"
      case FileChange(_) => "attachment"
    }
  }

  /** `files?.[0] || null`: the first picked file, if any. */
  function FirstFile(files: seq<Attachment>): (r: Option<Attachment>)
    ensures r.Some? <==> |files| > 0
    ensures r.Some? ==> r.value == files[0]
  {
    if |files| > 0 then Some(files[0]) else None
  }

  /** `file ? file.name : ''`: the name shown for the attachment. */
  function ShownName(file: Option<Attachment>): string {
    match file
    case Some(f) => f.name
    case None => ""
  }

  /** After a file change, the page shows the first picked file's name, or
      nothing when no file was picked. */
  lemma ShownFirstName(files: seq<Attachment>)
    ensures files == [] ==> ShownName(FirstFile(files)) == ""
    ensures files != [] ==> ShownName(FirstFile(files)) == files[0].name
  {
  }

  /** The topic value that asks for a free-text topic. */
  const OTHER_TOPIC: string := "Inne"

  /** The select's options; the empty value is the placeholder. */
  const TOPICS: seq<string> := [
    "Rozliczenie roczne (jaaropgave)", "Zakładanie firmy (ZZP / BV)",
    "Księgowość firmy", "Podatki pracownicze", OTHER_TOPIC
  ]

  /** The error object of the form (`ConsultationFormErrors`); the
      validator never writes `description`. */
  datatype ConsultationErrors = ConsultationErrors(
    fullName: Option<string>, email: Option<string>, phone: Option<string>,
    topic: Option<string>, otherTopic: Option<string>, description: Option<string>)
  {
    /** `errors[key]`; a name that is not a property reads as absent. */
    function Get(key: string): (r: Option<string>)
      ensures Sound() ==> FormErrors.Sound(r)
    {
      match key
      case "fullName" => fullName
      case "email" => email
      case "phone" => phone
      case "topic" => topic
      case "otherTopic" => otherTopic
      case "description" => description
      case _ => None
    }

    /** `{ ...errors, [key]: undefined }`. */
    function Clear(key: string): (r: ConsultationErrors)
      ensures r.Get(key) == None
      ensures forall k | k != key :: r.Get(k) == Get(k)
      ensures Get(key) == None ==> r == this
      ensures Sound() ==> r.Sound()
    {
      match key
      case "fullName" => this.(fullName := None)
      case "email" => this.(email := None)
      case "phone" => this.(phone := None)
      case "topic" => this.(topic := None)
      case "otherTopic" => this.(otherTopic := None)
      case "description" => this.(description := None)
      case _ => this
    }

    /** `Object.keys(errors).length`. */
    function Count(): nat {
      Present(fullName) + Present(email) + Present(phone) + Present(topic)
      + Present(otherTopic) + Present(description)
    }

    /** Every message present is a non-empty translation key. */
    predicate Sound() {
      && FormErrors.Sound(fullName) && FormErrors.Sound(email) && FormErrors.Sound(phone)
      && FormErrors.Sound(topic) && FormErrors.Sound(otherTopic) && FormErrors.Sound(description)
    }
  }

  /** `{}`. */
  const NO_ERRORS: ConsultationErrors := ConsultationErrors(None, None, None, None, None, None)

  lemma CountZeroIffEmpty(e: ConsultationErrors)
    ensures e.Count() == 0 <==> e == NO_ERRORS
  {
  }

  /** The error object `validateConsultationForm` computes for `d`. */
  function Errors(d: ConsultationData): (e: ConsultationErrors)
    ensures e.Sound()
  {
    ConsultationErrors(
      fullName := Required(d.fullName, "validation.fullName.required"),
      email := EmailRule(d.email),
      phone := Required(d.phone, "validation.phone.required"),
      topic := Required(d.topic, "validation.topic.required"),
      otherTopic := When(d.topic == OTHER_TOPIC && d.otherTopic == "", "validation.otherTopic.required"),
      description := None)
  }

  /** A record the form accepts: name, phone and topic filled in, a
      well-formed email, and a free-text topic when "other" is picked. */
  predicate Acceptable(d: ConsultationData) {
    && d.fullName != ""
    && EmailPattern(d.email)
    && d.phone != ""
    && d.topic != ""
    && (d.topic == OTHER_TOPIC ==> d.otherTopic != "")
  }

  lemma ErrorsEmptyIffAcceptable(d: ConsultationData)
    ensures Errors(d) == NO_ERRORS <==> Acceptable(d)
  {
  }

  /** The same email rule as the quote form. */
  lemma EmailErrors(d: ConsultationData)
    ensures d.email == "" ==> Errors(d).email == Some("validation.email.required")
    ensures d.email != "" && !EmailPattern(d.email) ==> Errors(d).email == Some("validation.email.invalid")
    ensures Errors(d).email == None <==> EmailPattern(d.email)
  {
  }

  /** `otherTopic` is required exactly when the topic is the "other" value;
      `description` is never in error. */
  lemma TopicErrors(d: ConsultationData)
    ensures Errors(d).otherTopic.Some? <==> d.topic == OTHER_TOPIC && d.otherTopic == ""
    ensures Errors(d).topic.Some? <==> d.topic == ""
    ensures Errors(d).description == None
  {
  }

  // ---------------------------------------------------------------------
  // The WhatsApp message
  // ---------------------------------------------------------------------

  /** The number the message is sent to. */
  const WHATSAPP_NUMBER: string := "1234567890"

  const TITLE: string := "Nowa prośba o konsultację:"

  /** The title line and a blank line. */
  const HEADER: string := TITLE + "\n\n"

  /** The topic the message reports: the free text for the "other" topic. */
  function ReportedTopic(d: ConsultationData): (r: string)
    ensures r == d.topic || r == d.otherTopic
    ensures d.topic == OTHER_TOPIC ==> r == d.otherTopic
    ensures Acceptable(d) ==> r != ""
  {
    if d.topic == OTHER_TOPIC then d.otherTopic else d.topic
  }

  /** The fixed text that opens each line. */
  const NAME_LEAD: string := "Imię i nazwisko: "
  const EMAIL_LEAD: string := "Email: "
  const PHONE_LEAD: string := "Telefon: "
  const WHATSAPP_LEAD: string := "Kontakt WhatsApp: "
  const TOPIC_LEAD: string := "Temat: "
  const DESCRIPTION_LEAD: string := "Opis: "

  /** The lines of the message after its header, in order. */
  function Entries(d: ConsultationData): (es: seq<Entry>)
    ensures |es| == 6
    ensures es[5].value != ""
  {
    [ Entry(NAME_LEAD, d.fullName),
      Entry(EMAIL_LEAD, d.email),
      Entry(PHONE_LEAD, d.phone),
      Entry(WHATSAPP_LEAD, YesNo(d.wantsWhatsApp)),
      Entry(TOPIC_LEAD, ReportedTopic(d)),
      Entry(DESCRIPTION_LEAD, Or(d.description, "Brak opisu")) ]
  }

  /** The message text, grown line by line as the submit handler does. */
  method BuildMessage(d: ConsultationData) returns (message: string)
    ensures message == Report(HEADER, Entries(d))
  {
    var topic := ReportedTopic(d);
    ghost var done: seq<Entry> := [];
    message := HEADER;
    message := message + NAME_LEAD + d.fullName + "\n";
    Appended(HEADER, done, Entry(NAME_LEAD, d.fullName), message);
    done := done + [Entry(NAME_LEAD, d.fullName)];
    message := message + EMAIL_LEAD + d.email + "\n";
    Appended(HEADER, done, Entry(EMAIL_LEAD, d.email), message);
    done := done + [Entry(EMAIL_LEAD, d.email)];
    message := message + PHONE_LEAD + d.phone + "\n";
    Appended(HEADER, done, Entry(PHONE_LEAD, d.phone), message);
    done := done + [Entry(PHONE_LEAD, d.phone)];
    message := message + WHATSAPP_LEAD + YesNo(d.wantsWhatsApp) + "\n";
    Appended(HEADER, done, Entry(WHATSAPP_LEAD, YesNo(d.wantsWhatsApp)), message);
    done := done + [Entry(WHATSAPP_LEAD, YesNo(d.wantsWhatsApp))];
    message := message + TOPIC_LEAD + topic + "\n";
    Appended(HEADER, done, Entry(TOPIC_LEAD, topic), message);
    done := done + [Entry(TOPIC_LEAD, topic)];
    message := message + DESCRIPTION_LEAD + Or(d.description, "Brak opisu") + "\n";
    Appended(HEADER, done, Entry(DESCRIPTION_LEAD, Or(d.description, "Brak opisu")), message);
    done := done + [Entry(DESCRIPTION_LEAD, Or(d.description, "Brak opisu"))];
    assert done == Entries(d);
  }

  /** Every line of a message sent for an accepted record carries a
      non-empty value: in particular, the reported topic is the free text
      when the "other" topic was picked, and it is never empty. */
  lemma AcceptedEntriesFilled(d: ConsultationData)
    requires Acceptable(d)
    ensures forall i | 0 <= i < |Entries(d)| :: Entries(d)[i].value != ""
    ensures Entries(d)[4].value == (if d.topic == OTHER_TOPIC then d.otherTopic else d.topic)
  {
  }

  /** Read back line by line, the message is its title, a blank line, one
      line per entry, and the empty piece after the final line break. */
  lemma MessageLines(d: ConsultationData)
    requires SingleLine(Entries(d))
    ensures Lines(Report(HEADER, Entries(d))) == [TITLE, ""] + EntryLines(Entries(d)) + [""]
  {
    LinesOfReport(TITLE, Entries(d), "");
    assert Report(HEADER, Entries(d)) + "" == Report(HEADER, Entries(d));
  }

  /** The description is a text area and may span lines. Read back line by
      line, the message still starts with its title, a blank line and the
      five single-line entries; what follows is the description entry's own
      lines, the first of which starts with its lead. */
  lemma MessageLinesAnyDescription(d: ConsultationData)
    requires SingleLine(Entries(d)[..5])
    ensures var lines := Lines(Report(HEADER, Entries(d)));
      && lines == [TITLE, ""] + EntryLines(Entries(d)[..5]) + Lines(LineOf(Entries(d)[5]) + "\n")
      && |lines| >= 8
      && DESCRIPTION_LEAD <= lines[7]
  {
    assert Entries(d) == Entries(d)[..5] + [Entries(d)[5]];
    LinesOfReportOpenLast(TITLE, Entries(d)[..5], Entries(d)[5]);
  }

  /** The topic line of the message reports the free text when the "other"
      topic was picked and the picked topic otherwise, wherever the
      description breaks its lines; for a description without line breaks,
      the next and last non-empty line is the description, falling back to
      `Brak opisu`. */
  lemma TopicAndDescriptionLines(d: ConsultationData)
    requires SingleLine(Entries(d)[..5])
    ensures var lines := Lines(Report(HEADER, Entries(d)));
      && |lines| >= 8
      && lines[6] == TOPIC_LEAD + (if d.topic == OTHER_TOPIC then d.otherTopic else d.topic)
      && DESCRIPTION_LEAD <= lines[7]
    ensures '\n' !in d.description ==>
      var lines := Lines(Report(HEADER, Entries(d)));
      && |lines| == 9
      && lines[7] == DESCRIPTION_LEAD + (if d.description == "" then "Brak opisu" else d.description)
  {
    MessageLinesAnyDescription(d);
    if '\n' !in d.description {
      var line := LineOf(Entries(d)[5]);
      assert '\n' !in line;
      LinesCons(line, "");
      assert line + "\n" == line + "\n" + "";
    }
  }

  /** Picking a topic option other than `Inne` satisfies both topic
      checks. */
  lemma PickedTopicAccepted(d: ConsultationData)
    requires d.topic in TOPICS && d.topic != OTHER_TOPIC
    ensures Errors(d).topic == None && Errors(d).otherTopic == None
  {
  }
}
