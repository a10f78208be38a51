/**
 * The callback-request form: three required text inputs and what
 * `validateCallbackForm` reports for them.
 */
module CallbackForm {
  import opened Wrappers
  import opened FormErrors

  datatype TextField = Name | CompanyName | PhoneNumber {
    /** The input's `name` attribute, which is also its error key. */
    function Key(): string {
      match this
      case Name => "callbackName"
      case CompanyName => "callbackCompanyName"
      case PhoneNumber => "callbackPhoneNumber"
    }

    /** The translation key reported when the input is empty. */
    function RequiredKey(): string {
      match this
      case Name => "validation.name.required"
      case CompanyName => "validation.companyName.required"
      case PhoneNumber => "validation.phone.required"
    }
  }

  /** The state record `callbackData`. */
  datatype CallbackData = CallbackData(
    callbackName: string, callbackCompanyName: string, callbackPhoneNumber: string)
  {
    function Get(f: TextField): string {
      match f
      case Name => callbackName
      case CompanyName => callbackCompanyName
      case PhoneNumber => callbackPhoneNumber
    }

    /** `{ ...prev, [name]: value }`. */
    function Set(f: TextField, v: string): (r: CallbackData)
      ensures r.Get(f) == v
      ensures forall g: TextField | g != f :: r.Get(g) == Get(g)
    {
      match f
      case Name => this.(callbackName := v)
      case CompanyName => this.(callbackCompanyName := v)
      case PhoneNumber => this.(callbackPhoneNumber := v)
    }
  }

  /** The record the form starts with and is reset to. */
  const EMPTY: CallbackData := CallbackData("", "", "")

  /** The error object of the form (`CallbackFormErrors`). */
  datatype CallbackErrors = CallbackErrors(
    callbackName: Option<string>, callbackCompanyName: Option<string>,
    callbackPhoneNumber: Option<string>)
  {
    /** `errors[key]`; a name that is not a property reads as absent. */
    function Get(key: string): (r: Option<string>)
      ensures Sound() ==> FormErrors.Sound(r)
    {
      match key
      case "callbackName" => callbackName
      case "callbackCompanyName" => callbackCompanyName
      case "callbackPhoneNumber" => callbackPhoneNumber
      case _ => None
    }

    /** `{ ...errors, [key]: undefined }`. */
    function Clear(key: string): (r: CallbackErrors)
      ensures r.Get(key) == None
      ensures forall k | k != key :: r.Get(k) == Get(k)
      ensures Get(key) == None ==> r == this
      ensures Sound() ==> r.Sound()
    {
      match key
      case "callbackName" => this.(callbackName := None)
      case "callbackCompanyName" => this.(callbackCompanyName := None)
      case "callbackPhoneNumber" => this.(callbackPhoneNumber := None)
      case _ => this
    }

    /** `Object.keys(errors).length`. */
    function Count(): nat {
      Present(callbackName) + Present(callbackCompanyName) + Present(callbackPhoneNumber)
    }

    /** Every message present is a non-empty translation key. */
    predicate Sound() {
      FormErrors.Sound(callbackName) && FormErrors.Sound(callbackCompanyName)
      && FormErrors.Sound(callbackPhoneNumber)
    }
  }

  /** `{}`. */
  const NO_ERRORS: CallbackErrors := CallbackErrors(None, None, None)

  lemma CountZeroIffEmpty(e: CallbackErrors)
    ensures e.Count() == 0 <==> e == NO_ERRORS
  {
  }

  /** The error object `validateCallbackForm` computes for `d`. */
  function Errors(d: CallbackData): (e: CallbackErrors)
    ensures e.Sound()
  {
    CallbackErrors(
      callbackName := Required(d.callbackName, "validation.name.required"),
      callbackCompanyName := Required(d.callbackCompanyName, "validation.companyName.required"),
      callbackPhoneNumber := Required(d.callbackPhoneNumber, "validation.phone.required"))
  }

  /** Each input is in error exactly when it is empty, and the error is its
      `.required` key, reported under the input's own name; nothing else is
      ever reported. */
  lemma ErrorsAreMissingFields(d: CallbackData)
    ensures forall f: TextField :: Errors(d).Get(f.Key()).Some? <==> d.Get(f) == ""
    ensures forall f: TextField | Errors(d).Get(f.Key()).Some? ::
              Errors(d).Get(f.Key()).value == f.RequiredKey()
    ensures forall k | Errors(d).Get(k).Some? :: exists f: TextField :: k == f.Key()
  {
    var e := Errors(d);
    forall k | e.Get(k).Some? ensures exists f: TextField :: k == f.Key() {
      if k == "callbackName" { assert k == Name.Key(); }
      else if k == "callbackCompanyName" { assert k == CompanyName.Key(); }
      else { assert k == PhoneNumber.Key(); }
    }
  }

  /** Nothing is reported exactly when all three inputs are filled in. */
  lemma ErrorsEmptyIffFilled(d: CallbackData)
    ensures Errors(d) == NO_ERRORS <==> forall f: TextField :: d.Get(f) != ""
  {
    if Errors(d) == NO_ERRORS {
      forall f: TextField ensures d.Get(f) != "" {
        match f {
          case Name => assert Errors(d).callbackName == None;
          case CompanyName => assert Errors(d).callbackCompanyName == None;
          case PhoneNumber => assert Errors(d).callbackPhoneNumber == None;
        }
      }
    } else {
      if d.callbackName == "" { assert d.Get(Name) == ""; }
      else if d.callbackCompanyName == "" { assert d.Get(CompanyName) == ""; }
      else { assert d.Get(PhoneNumber) == ""; }
    }
  }
}
