/**
 * What the four validators of the contact page share: the outcome of one
 * field's checks, and the checks themselves.
 *
 * A property of an error object is either absent (or `undefined`, which
 * reads the same everywhere the page looks) or a translation key; both are
 * an `Option<string>` here. Each validator starts from an empty object and
 * checks the fields one after the other. A check is of one of four kinds:
 * a required check that stores a key when the value is empty; a required
 * check followed by a length check that overwrites the key; the email
 * check, whose second test only runs when the first passes; and a check
 * that stores a key when some condition holds. The checks of
 * a field only ever write that field, so its outcome is decided by them
 * alone: the methods below run one field's checks, and the functions state
 * what they leave behind.
 */
module FormErrors {
  import opened Wrappers
  import opened Text

  /** A required field: the value is falsy exactly when it is the empty
      string, so a whitespace-only value passes. */
  function Required(value: string, key: string): (r: Option<string>)
    ensures r.Some? <==> value == ""
    ensures r.Some? ==> r.value == key
  {
    if value == "" then Some(key) else None
  }

  /** A required field with a length ceiling: the `.limit` check runs after
      the `.required` one and overwrites it. */
  function Limited(value: string, limit: nat, requiredKey: string, limitKey: string): (r: Option<string>)
    ensures r.Some? <==> value == "" || Utf16Length(value) > limit
    ensures Utf16Length(value) > limit ==> r == Some(limitKey)
    ensures Utf16Length(value) <= limit && value == "" ==> r == Some(requiredKey)
  {
    if Utf16Length(value) > limit then Some(limitKey)
    else if value == "" then Some(requiredKey)
    else None
  }

  /** The email rule shared by the quote, consultation and tax-return
      forms: missing, or present but not matching `\S+@\S+\.\S+`. */
  function EmailRule(email: string): (r: Option<string>)
    ensures r == None <==> EmailPattern(email)
    ensures email == "" ==> r == Some("validation.email.required")
    ensures email != "" && !EmailPattern(email) ==> r == Some("validation.email.invalid")
  {
    if email == "" then Some("validation.email.required")
    else if !EmailPattern(email) then Some("validation.email.invalid")
    else None
  }

  /** A check that stores `key` exactly when `failed` holds. */
  function When(failed: bool, key: string): (r: Option<string>)
    ensures r.Some? <==> failed
    ensures r.Some? ==> r.value == key
  {
    if failed then Some(key) else None
  }

  /** A property `Object.keys` counts: one the validator assigned. */
  function Present(error: Option<string>): (n: nat)
    ensures n == 0 <==> error == None
  {
    if error.Some? then 1 else 0
  }

  /** A property the change handlers see as set: present and not the
      (falsy) empty string. */
  predicate Truthy(error: Option<string>) {
    error.Some? && error.value != ""
  }

  /** A property holding a message, if any, holds a truthy one. */
  predicate Sound(error: Option<string>) {
    error.Some? ==> error.value != ""
  }

  /** Runs a required check. */
  method CheckRequired(value: string, key: string) returns (error: Option<string>)
    ensures error == Required(value, key)
  {
    error := None;
    if value == "" {
      error := Some(key);
    }
  }

  /** Runs a required check and then the length check, which overwrites
      the first key when the value is too long. */
  method CheckLimited(value: string, limit: nat, requiredKey: string, limitKey: string)
    returns (error: Option<string>)
    ensures error == Limited(value, limit, requiredKey, limitKey)
  {
    error := None;
    if value == "" {
      error := Some(requiredKey);
    }
    if Utf16Length(value) > limit {
      error := Some(limitKey);
    }
  }

  /** Runs the email check: missing first, and only for a present value
      the pattern. */
  method CheckEmail(email: string) returns (error: Option<string>)
    ensures error == EmailRule(email)
  {
    error := None;
    if email == "" {
      error := Some("validation.email.required");
    } else if !EmailPattern(email) {
      error := Some("validation.email.invalid");
    }
  }

  /** Runs a check of an arbitrary condition. */
  method Check(failed: bool, key: string) returns (error: Option<string>)
    ensures error == When(failed, key)
  {
    error := None;
    if failed {
      error := Some(key);
    }
  }
}
