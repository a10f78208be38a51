/**
 * The quote-request form: its field record, the field-by-field change it
 * takes, and what `validateForm` reports for a record.
 */
module QuoteForm {
  import opened Wrappers
  import opened Text
  import opened FormErrors

  /** The text inputs of the form (the privacy checkbox is separate). */
  datatype TextField =
    | Name | CompanyName | Email | ConfirmEmail | PhoneNumber | Address
    | ProjectType | StartDate | EndDate | Equipment | Requests
  {
    /** The input's `name` attribute, which is also its error key. */
    function Key(): string {
      match this
      case Name => "name"
      case CompanyName => "companyName"
      case Email => "email"
      case ConfirmEmail => "confirmEmail"
      case PhoneNumber => "phoneNumber"
      case Address => "address"
      case ProjectType => "projectType"
      case StartDate => "startDate"
      case EndDate => "endDate"
      case Equipment => "equipment"
      case Requests => "requests"
    }
  }

  /** The state record `formData`. */
  datatype QuoteData = QuoteData(
    name: string, companyName: string, email: string, confirmEmail: string,
    phoneNumber: string, address: string, projectType: string,
    startDate: string, endDate: string, equipment: string, requests: string,
    privacy: bool)
  {
    function Get(f: TextField): string {
      match f
      case Name => name
      case CompanyName => companyName
      case Email => email
      case ConfirmEmail => confirmEmail
      case PhoneNumber => phoneNumber
      case Address => address
      case ProjectType => projectType
      case StartDate => startDate
      case EndDate => endDate
      case Equipment => equipment
      case Requests => requests
    }

    /** `{ ...prev, [name]: value }` for a text input. */
    function Set(f: TextField, v: string): (r: QuoteData)
      ensures r.Get(f) == v
      ensures forall g: TextField | g != f :: r.Get(g) == Get(g)
      ensures r.privacy == privacy
    {
      match f
      case Name => this.(name := v)
      case CompanyName => this.(companyName := v)
      case Email => this.(email := v)
      case ConfirmEmail => this.(confirmEmail := v)
      case PhoneNumber => this.(phoneNumber := v)
      case Address => this.(address := v)
      case ProjectType => this.(projectType := v)
      case StartDate => this.(startDate := v)
      case EndDate => this.(endDate := v)
      case Equipment => this.(equipment := v)
      case Requests => this.(requests := v)
    }
  }

  /** The record the form starts with. */
  const EMPTY: QuoteData := QuoteData("", "", "", "", "", "", "", "", "", "", "", false)

  /** One change event: a text, radio or date input writes its value; the
      only checkbox of the form, `privacy`, writes its checked state. */
  datatype Change = TextChange(field: TextField, value: string) | PrivacyChange(checked: bool) {
    /** `e.target.name`. */
    function Name(): string {
      match this
      case TextChange(f, _) => f.Key()
      case PrivacyChange(_) => "privacy"
    }
  }

  /** The error object of the form (`FormErrors`): one optional message per
      property. */
  datatype QuoteErrors = QuoteErrors(
    name: Option<string>, companyName: Option<string>, email: Option<string>,
    confirmEmail: Option<string>, phoneNumber: Option<string>, address: Option<string>,
    projectType: Option<string>, startDate: Option<string>, endDate: Option<string>,
    equipment: Option<string>, requests: Option<string>, privacy: Option<string>)
  {
    /** `errors[key]`: the property an input's name selects; a name that is
        not a property reads as absent. */
    function Get(key: string): (r: Option<string>)
      ensures Sound() ==> FormErrors.Sound(r)
    {
      match key
      case "name" => name
      case "companyName" => companyName
      case "email" => email
      case "confirmEmail" => confirmEmail
      case "phoneNumber" => phoneNumber
      case "address" => address
      case "projectType" => projectType
      case "startDate" => startDate
      case "endDate" => endDate
      case "equipment" => equipment
      case "requests" => requests
      case "privacy" => privacy
      case _ => None
    }

    /** `{ ...errors, [key]: undefined }`: the property `key` is dropped and
        every other one is kept. */
    function Clear(key: string): (r: QuoteErrors)
      ensures r.Get(key) == None
      ensures forall k | k != key :: r.Get(k) == Get(k)
      ensures Get(key) == None ==> r == this
      ensures Sound() ==> r.Sound()
    {
      match key
      case "name" => this.(name := None)
      case "companyName" => this.(companyName := None)
      case "email" => this.(email := None)
      case "confirmEmail" => this.(confirmEmail := None)
      case "phoneNumber" => this.(phoneNumber := None)
      case "address" => this.(address := None)
      case "projectType" => this.(projectType := None)
      case "startDate" => this.(startDate := None)
      case "endDate" => this.(endDate := None)
      case "equipment" => this.(equipment := None)
      case "requests" => this.(requests := None)
      case "privacy" => this.(privacy := None)
      case _ => this
    }

    /** `Object.keys(errors).length` for an object whose properties were
        only ever assigned messages. */
    function Count(): nat {
      Present(name) + Present(companyName) + Present(email) + Present(confirmEmail)
      + Present(phoneNumber) + Present(address) + Present(projectType)
      + Present(startDate) + Present(endDate) + Present(equipment)
      + Present(requests) + Present(privacy)
    }

    /** Every message present is a non-empty translation key. */
    predicate Sound() {
      && FormErrors.Sound(name) && FormErrors.Sound(companyName) && FormErrors.Sound(email)
      && FormErrors.Sound(confirmEmail) && FormErrors.Sound(phoneNumber)
      && FormErrors.Sound(address) && FormErrors.Sound(projectType)
      && FormErrors.Sound(startDate) && FormErrors.Sound(endDate)
      && FormErrors.Sound(equipment) && FormErrors.Sound(requests) && FormErrors.Sound(privacy)
    }
  }

  /** `{}`. */
  const NO_ERRORS: QuoteErrors :=
    QuoteErrors(None, None, None, None, None, None, None, None, None, None, None, None)

  /** No property is present exactly when the object is `{}`. */
  lemma CountZeroIffEmpty(e: QuoteErrors)
    ensures e.Count() == 0 <==> e == NO_ERRORS
  {
  }

  const COMPANY_NAME_LIMIT: nat := 100
  const ADDRESS_LIMIT: nat := 100
  const EQUIPMENT_LIMIT: nat := 500
  const REQUESTS_WORD_LIMIT: nat := 500

  /** The error object `validateForm` computes for `d`, field by field. */
  function Errors(d: QuoteData): (e: QuoteErrors)
    ensures e.Sound()
  {
    QuoteErrors(
      name := Required(d.name, "validation.name.required"),
      companyName := Limited(d.companyName, COMPANY_NAME_LIMIT,
        "validation.companyName.required", "validation.companyName.limit"),
      email := EmailRule(d.email),
      confirmEmail := When(d.email != d.confirmEmail, "validation.email.mismatch"),
      phoneNumber := Required(d.phoneNumber, "validation.phone.required"),
      address := Limited(d.address, ADDRESS_LIMIT,
        "validation.address.required", "validation.address.limit"),
      projectType := Required(d.projectType, "validation.projectType.required"),
      startDate := Required(d.startDate, "validation.startDate.required"),
      endDate := Required(d.endDate, "validation.endDate.required"),
      equipment := Limited(d.equipment, EQUIPMENT_LIMIT,
        "validation.equipment.required", "validation.equipment.limit"),
      requests := When(WordCount(d.requests) > REQUESTS_WORD_LIMIT, "validation.requests.limit"),
      privacy := When(!d.privacy, "validation.privacy.required"))
  }

  /** A record the form accepts, stated independently of the validator's
      statements: every required input filled, the three length ceilings
      kept, a matching pair of well-formed emails, at most 500 maximal
      non-whitespace runs in `requests`, and consent given. */
  predicate Acceptable(d: QuoteData) {
    && d.name != ""
    && d.companyName != "" && Utf16Length(d.companyName) <= COMPANY_NAME_LIMIT
    && EmailPattern(d.email)
    && d.email == d.confirmEmail
    && d.phoneNumber != ""
    && d.address != "" && Utf16Length(d.address) <= ADDRESS_LIMIT
    && d.projectType != "" && d.startDate != "" && d.endDate != ""
    && d.equipment != "" && Utf16Length(d.equipment) <= EQUIPMENT_LIMIT
    && RunCount(d.requests) <= REQUESTS_WORD_LIMIT
    && d.privacy
  }

  /** The validator reports nothing exactly for the acceptable records. */
  lemma ErrorsEmptyIffAcceptable(d: QuoteData)
    ensures Errors(d) == NO_ERRORS <==> Acceptable(d)
  {
    WordCountIsRunCount(d.requests);
  }

  /** Empty email: `.required`; present but not an email: `.invalid`; an
      email matching the pattern: no email error. */
  lemma EmailErrors(d: QuoteData)
    ensures d.email == "" ==> Errors(d).email == Some("validation.email.required")
    ensures d.email != "" && !EmailPattern(d.email) ==> Errors(d).email == Some("validation.email.invalid")
    ensures Errors(d).email == None <==> EmailPattern(d.email)
  {
  }

  /** `confirmEmail` is in error exactly when it differs from `email`,
      whether or not either is empty or well formed. */
  lemma ConfirmEmailErrors(d: QuoteData)
    ensures Errors(d).confirmEmail.Some? <==> d.email != d.confirmEmail
    ensures Errors(d).confirmEmail.Some? ==> Errors(d).confirmEmail.value == "validation.email.mismatch"
  {
  }

  /** `companyName` and `address` (100 code units) and `equipment` (500):
      over the limit gives `.limit`, otherwise empty gives `.required`, and
      anything else no error. */
  lemma LengthLimitErrors(d: QuoteData)
    ensures Utf16Length(d.companyName) > 100 ==> Errors(d).companyName == Some("validation.companyName.limit")
    ensures d.companyName == "" ==> Errors(d).companyName == Some("validation.companyName.required")
    ensures d.companyName != "" && Utf16Length(d.companyName) <= 100 ==> Errors(d).companyName == None
    ensures Utf16Length(d.address) > 100 ==> Errors(d).address == Some("validation.address.limit")
    ensures d.address == "" ==> Errors(d).address == Some("validation.address.required")
    ensures d.address != "" && Utf16Length(d.address) <= 100 ==> Errors(d).address == None
    ensures Utf16Length(d.equipment) > 500 ==> Errors(d).equipment == Some("validation.equipment.limit")
    ensures d.equipment == "" ==> Errors(d).equipment == Some("validation.equipment.required")
    ensures d.equipment != "" && Utf16Length(d.equipment) <= 500 ==> Errors(d).equipment == None
  {
  }

  /** `requests` is optional: it is in error exactly when it holds more than
      500 maximal non-whitespace runs. */
  lemma RequestsErrors(d: QuoteData)
    ensures Errors(d).requests.Some? <==> WordCount(d.requests) > 500
    ensures Errors(d).requests.Some? <==> RunCount(d.requests) > 500
  {
    WordCountIsRunCount(d.requests);
  }

  /** Any empty text input other than `requests` makes the validator report
      something. */
  lemma MissingFieldReported(d: QuoteData, f: TextField)
    requires f != Requests && d.Get(f) == ""
    ensures Errors(d) != NO_ERRORS
  {
    if f == ConfirmEmail {
      if d.email == "" {
        assert Errors(d).email.Some?;
      } else {
        assert Errors(d).confirmEmail.Some?;
      }
    }
  }

  /** Every empty text input except `requests` and `confirmEmail` (which is
      only compared with `email`) is reported under its own name, the one
      its change event clears. */
  lemma MissingFieldReportedUnderItsName(d: QuoteData, f: TextField)
    requires f != Requests && f != ConfirmEmail && d.Get(f) == ""
    ensures Errors(d).Get(f.Key()).Some?
  {
    var e := Errors(d);
    match f {
      case Name => assert e.Get("name") == e.name;
      case CompanyName => assert e.Get("companyName") == e.companyName;
      case Email => assert e.Get("email") == e.email;
      case PhoneNumber => assert e.Get("phoneNumber") == e.phoneNumber;
      case Address => assert e.Get("address") == e.address;
      case ProjectType => assert e.Get("projectType") == e.projectType;
      case StartDate => assert e.Get("startDate") == e.startDate;
      case EndDate => assert e.Get("endDate") == e.endDate;
      case Equipment => assert e.Get("equipment") == e.equipment;
    }
  }

  /** A filled-in request with matching, well-formed emails and consent. */
  const EXAMPLE: QuoteData := QuoteData(
    "Jan", "Acme", "a@b.com", "a@b.com", "123", "Main St 1", "Woningbouw",
    "2025-01-01", "2025-01-31", "crane", "", true)

  /** The example's address is an email. */
  lemma ExampleEmail()
    ensures EmailPattern(EXAMPLE.email)
  {
    var w := EXAMPLE.email;
    assert w[0..7] == w;
    assert w[1] == '@' && w[3] == '.';
    assert FullyMatchesEmail(w[0..7]);
  }

  /** The example meets every condition of the form. */
  lemma ExampleAcceptable()
    ensures Acceptable(EXAMPLE)
  {
    ExampleEmail();
    assert RunCount("") == 0;
  }

  lemma ExampleAccepted()
    ensures Errors(EXAMPLE) == NO_ERRORS
  {
    ExampleAcceptable();
    ErrorsEmptyIffAcceptable(EXAMPLE);
  }
}
