/**
 * The annual tax-return form: its record, its change events, what
 * `validateTaxReturnForm` reports, and the e-mail that
 * `handleTaxReturnSubmit` prepares.
 */
module TaxReturnForm {
  import opened Wrappers
  import opened Text
  import opened FormErrors
  import opened Files
  import opened Messages

  datatype TextField = FullName | Bsn | Email | Phone | TaxYear {
    /** The input's `name` attribute, which is also its error key. */
    function Key(): string {
      match this
      case FullName => "fullName"
      case Bsn => "bsn"
      case Email => "email"
      case Phone => "phone"
      case TaxYear => "taxYear"
    }
  }

  /** The state record `taxReturnData`. */
  datatype TaxReturnData = TaxReturnData(
    fullName: string, bsn: string, email: string, phone: string,
    taxYear: string, files: seq<Attachment>, jointReturn: bool)
  {
    function Get(f: TextField): string {
      match f
      case FullName => fullName
      case Bsn => bsn
      case Email => email
      case Phone => phone
      case TaxYear => taxYear
    }

    /** `{ ...prev, [name]: value }` for a text input or the year select. */
    function Set(f: TextField, v: string): (r: TaxReturnData)
      ensures r.Get(f) == v
      ensures forall g: TextField | g != f :: r.Get(g) == Get(g)
      ensures r.files == files && r.jointReturn == jointReturn
    {
      match f
      case FullName => this.(fullName := v)
      case Bsn => this.(bsn := v)
      case Email => this.(email := v)
      case Phone => this.(phone := v)
      case TaxYear => this.(taxYear := v)
    }
  }

  /** The record the form starts with and is reset to. */
  const EMPTY: TaxReturnData := TaxReturnData("", "", "", "", "", [], false)

  /** One change event: a text input or the year select writes its value,
      the `jointReturn` checkbox its checked state, and the `files` input
      the list of picked files. */
  datatype Change =
    | TextChange(field: TextField, value: string)
    | JointReturnChange(checked: bool)
    | FilesChange(picked: seq<Attachment>)
  {
    /** `e.target.name`. */
    function Name(): string {
      match this
      case TextChange(f, _) => f.Key()
      case JointReturnChange(_) => "jointReturn"
      case FilesChange(_) => "files"
    }
  }

  /** The select's options (as the strings a select yields); the empty value
      is the placeholder. */
  const TAX_YEARS: seq<string> := ["2025", "2024", "2023", "2022", "2021"]

  /** The error object of the form (`TaxReturnFormErrors`); `bsn` is
      optional and has no property. */
  datatype TaxReturnErrors = TaxReturnErrors(
    fullName: Option<string>, email: Option<string>, phone: Option<string>,
    taxYear: Option<string>)
  {
    /** `errors[key]`; a name that is not a property reads as absent. */
    function Get(key: string): (r: Option<string>)
      ensures Sound() ==> FormErrors.Sound(r)
    {
      match key
      case "fullName" => fullName
      case "email" => email
      case "phone" => phone
      case "taxYear" => taxYear
      case _ => None
    }

    /** `{ ...errors, [key]: undefined }`. */
    function Clear(key: string): (r: TaxReturnErrors)
      ensures r.Get(key) == None
      ensures forall k | k != key :: r.Get(k) == Get(k)
      ensures Get(key) == None ==> r == this
      ensures Sound() ==> r.Sound()
    {
      match key
      case "fullName" => this.(fullName := None)
      case "email" => this.(email := None)
      case "phone" => this.(phone := None)
      case "taxYear" => this.(taxYear := None)
      case _ => this
    }

    /** `Object.keys(errors).length`. */
    function Count(): nat {
      Present(fullName) + Present(email) + Present(phone) + Present(taxYear)
    }

    /** Every message present is a non-empty translation key. */
    predicate Sound() {
      && FormErrors.Sound(fullName) && FormErrors.Sound(email)
      && FormErrors.Sound(phone) && FormErrors.Sound(taxYear)
    }
  }

  /** `{}`. */
  const NO_ERRORS: TaxReturnErrors := TaxReturnErrors(None, None, None, None)

  lemma CountZeroIffEmpty(e: TaxReturnErrors)
    ensures e.Count() == 0 <==> e == NO_ERRORS
  {
  }

  /** The error object `validateTaxReturnForm` computes for `d`. */
  function Errors(d: TaxReturnData): (e: TaxReturnErrors)
    ensures e.Sound()
  {
    TaxReturnErrors(
      fullName := Required(d.fullName, "validation.fullName.required"),
      email := EmailRule(d.email),
      phone := Required(d.phone, "validation.phone.required"),
      taxYear := Required(d.taxYear, "validation.taxYear.required"))
  }

  /** A record the form accepts; the national id, the files and the
      joint-return box play no part. */
  predicate Acceptable(d: TaxReturnData) {
    d.fullName != "" && EmailPattern(d.email) && d.phone != "" && d.taxYear != ""
  }

  lemma ErrorsEmptyIffAcceptable(d: TaxReturnData)
    ensures Errors(d) == NO_ERRORS <==> Acceptable(d)
  {
  }

  /** The same email rule as the quote form; the national id never errs. */
  lemma EmailErrors(d: TaxReturnData)
    ensures d.email == "" ==> Errors(d).email == Some("validation.email.required")
    ensures d.email != "" && !EmailPattern(d.email) ==> Errors(d).email == Some("validation.email.invalid")
    ensures Errors(d).email == None <==> EmailPattern(d.email)
    ensures Errors(d).Get("bsn") == None
  {
  }

  // ---------------------------------------------------------------------
  // The e-mail
  // ---------------------------------------------------------------------

  const MAIL_ADDRESS: string := "info@ella-personnel.nl"

  const TITLE: string := "Nowe zgłoszenie do rozliczenia rocznego:"

  /** The title line and a blank line. */
  const HEADER: string := TITLE + "\n\n"

  /** The closing sentences of the body. */
  const FOOTER: string :=
    "Ta wiadomość została "
    + "wygenerowana automatycznie. "
    + "Prosimy o przesłanie dokumentów "
    + "w odpowiedzi na tę wiadomość lub osobno."

  lemma FooterIsOneLine()
    ensures '\n' !in FOOTER
  {
    assert '\n' !in "Ta wiadomość została " && '\n' !in "wygenerowana automatycznie. ";
    assert '\n' !in "Prosimy o przesłanie dokumentów ";
    assert '\n' !in "w odpowiedzi na tę wiadomość lub osobno.";
  }

  /** The subject: the translated form title, a dash, the applicant. */
  function Subject(title: string, d: TaxReturnData): (r: string)
    ensures title <= r
    ensures r[|title|..] == " – " + d.fullName
  {
    title + " – " + d.fullName
  }

  /** The fixed text that opens each field line. */
  const NAME_LEAD: string := "Imię i nazwisko: "
  const BSN_LEAD: string := "BSN: "
  const EMAIL_LEAD: string := "Email: "
  const PHONE_LEAD: string := "Telefon: "
  const YEAR_LEAD: string := "Rok rozliczenia: "
  const JOINT_LEAD: string := "Wspólne rozliczenie z partnerem: "

  /** The field lines of the body, in order. */
  function Entries(d: TaxReturnData): (es: seq<Entry>)
    ensures |es| == 6
    ensures es[1].value != ""
  {
    [ Entry(NAME_LEAD, d.fullName),
      Entry(BSN_LEAD, Or(d.bsn, "Nie podano")),
      Entry(EMAIL_LEAD, d.email),
      Entry(PHONE_LEAD, d.phone),
      Entry(YEAR_LEAD, d.taxYear),
      Entry(JOINT_LEAD, YesNo(d.jointReturn)) ]
  }

  /** The body, grown line by line as the submit handler does; the last
      field line is followed by a blank line and a fixed closing sentence. */
  method BuildBody(d: TaxReturnData) returns (body: string)
    ensures body == Report(HEADER, Entries(d)) + "\n" + FOOTER
  {
    ghost var done: seq<Entry> := [];
    body := HEADER;
    body := body + NAME_LEAD + d.fullName + "\n";
    Appended(HEADER, done, Entry(NAME_LEAD, d.fullName), body);
    done := done + [Entry(NAME_LEAD, d.fullName)];
    body := body + BSN_LEAD + Or(d.bsn, "Nie podano") + "\n";
    Appended(HEADER, done, Entry(BSN_LEAD, Or(d.bsn, "Nie podano")), body);
    done := done + [Entry(BSN_LEAD, Or(d.bsn, "Nie podano"))];
    body := body + EMAIL_LEAD + d.email + "\n";
    Appended(HEADER, done, Entry(EMAIL_LEAD, d.email), body);
    done := done + [Entry(EMAIL_LEAD, d.email)];
    body := body + PHONE_LEAD + d.phone + "\n";
    Appended(HEADER, done, Entry(PHONE_LEAD, d.phone), body);
    done := done + [Entry(PHONE_LEAD, d.phone)];
    body := body + YEAR_LEAD + d.taxYear + "\n";
    Appended(HEADER, done, Entry(YEAR_LEAD, d.taxYear), body);
    done := done + [Entry(YEAR_LEAD, d.taxYear)];
    body := body + JOINT_LEAD + YesNo(d.jointReturn) + "\n\n";
    AppendedWithBlank(HEADER, done, Entry(JOINT_LEAD, YesNo(d.jointReturn)), body);
    done := done + [Entry(JOINT_LEAD, YesNo(d.jointReturn))];
    assert done == Entries(d);
    body := body + FOOTER;
  }

  /** Every field line of a body sent for an accepted record carries a
      non-empty value; a missing national id reads `Nie podano`. */
  lemma AcceptedEntriesFilled(d: TaxReturnData)
    requires Acceptable(d)
    ensures forall i | 0 <= i < |Entries(d)| :: Entries(d)[i].value != ""
    ensures d.bsn == "" ==> Entries(d)[1].value == "Nie podano"
  {
  }

  /** Read back line by line, the body is its title, a blank line, one line
      per field, a blank line and the closing sentence. */
  lemma BodyLines(d: TaxReturnData)
    requires SingleLine(Entries(d))
    ensures Lines(Report(HEADER, Entries(d)) + "\n" + FOOTER)
         == [TITLE, ""] + EntryLines(Entries(d)) + ["", FOOTER]
  {
    FooterIsOneLine();
    LinesOfReportThenLine(TITLE, Entries(d), FOOTER);
  }

  /** The national-id line of the body reads `Nie podano` when none was
      given, and the joint-return line `Tak` or `Nie`. */
  lemma BsnAndJointReturnLines(d: TaxReturnData)
    requires SingleLine(Entries(d))
    ensures var lines := Lines(Report(HEADER, Entries(d)) + "\n" + FOOTER);
      && |lines| == 10
      && lines[3] == BSN_LEAD + (if d.bsn == "" then "Nie podano" else d.bsn)
      && lines[7] == JOINT_LEAD + (if d.jointReturn then "Tak" else "Nie")
  {
    BodyLines(d);
  }

  /** Every option of the year select is one line and passes the year
      check. */
  lemma PickedYearAccepted(d: TaxReturnData)
    requires d.taxYear in TAX_YEARS
    ensures '\n' !in d.taxYear
    ensures Errors(d).taxYear == None
  {
  }
}
