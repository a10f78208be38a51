/**
 * The `ContactPage` component as a state machine: the selected tab, the four
 * forms' records and error objects, and the outbound effects its handlers fire
 * (alerts, console logs, the WhatsApp window, the `mailto:` navigation),
 * recorded in order in `outbox`.
 */
module ContactPage {
  import opened Wrappers
  import opened Text
  import opened FormErrors
  import opened Files
  import opened Messages
  import Quote = QuoteForm
  import Callback = CallbackForm
  import Consultation = ConsultationForm
  import Tax = TaxReturnForm

  /** The four tabs of the page. */
  datatype ActiveTab = QuoteTab | ConsultationTab | CallbackTab | TaxTab

  /** One call the component makes into the browser. */
  datatype Effect =
    | Alert(text: string)
    | LogQuote(quote: Quote.QuoteData)
    | LogCallback(callback: Callback.CallbackData)
    /** A new window on the WhatsApp chat with `number`, prefilled with `text`. */
    | OpenWhatsApp(number: string, text: string)
    /** The console log of the mail's subject, its body and the picked files. */
    | LogTaxReturn(subject: string, body: string, files: seq<Attachment>)
    /** Navigation to a `mailto:` link for `address` with the subject and body. */
    | Mailto(address: string, subject: string, body: string)

  class Component {
    /** The translation function `t` of `useTranslation`. */
    const t: string -> string

    var activeTab: ActiveTab
    var formData: Quote.QuoteData
    var errors: Quote.QuoteErrors
    var callbackData: Callback.CallbackData
    var callbackErrors: Callback.CallbackErrors
    var consultationData: Consultation.ConsultationData
    var consultationErrors: Consultation.ConsultationErrors
    var fileName: string
    var taxReturnData: Tax.TaxReturnData
    var taxReturnErrors: Tax.TaxReturnErrors
    /** Every effect fired so far, oldest first. */
    var outbox: seq<Effect>

    /** Every error the page holds is a non-empty translation key. */
    ghost predicate Valid()
      reads this
    {
      errors.Sound() && callbackErrors.Sound()
      && consultationErrors.Sound() && taxReturnErrors.Sound()
    }

    /** The initial state of every `useState`. */
    constructor(t: string -> string)
      ensures Valid() && this.t == t
      ensures activeTab == QuoteTab
      ensures formData == Quote.EMPTY && errors == Quote.NO_ERRORS
      ensures callbackData == Callback.EMPTY && callbackErrors == Callback.NO_ERRORS
      ensures consultationData == Consultation.EMPTY && consultationErrors == Consultation.NO_ERRORS
      ensures fileName == ""
      ensures taxReturnData == Tax.EMPTY && taxReturnErrors == Tax.NO_ERRORS
      ensures outbox == []
    {
      this.t := t;
      activeTab := QuoteTab;
      formData := Quote.EMPTY;
      errors := Quote.NO_ERRORS;
      callbackData := Callback.EMPTY;
      callbackErrors := Callback.NO_ERRORS;
      consultationData := Consultation.EMPTY;
      consultationErrors := Consultation.NO_ERRORS;
      fileName := "";
      taxReturnData := Tax.EMPTY;
      taxReturnErrors := Tax.NO_ERRORS;
      outbox := [];
    }

    /** `setActiveTab`: the tab buttons change the tab and nothing else. */
    method SetActiveTab(tab: ActiveTab)
      requires Valid()
      modifies this`activeTab
      ensures Valid()
      ensures activeTab == tab
    {
      activeTab := tab;
    }

    // -------------------------------------------------------------------
    // The quote form
    // -------------------------------------------------------------------

    /** `handleChange`: write the named input, then drop its error if one is
        set; the other errors stay. */
    method HandleChange(c: Quote.Change)
      requires Valid()
      modifies this`formData, this`errors
      ensures Valid()
      ensures c.TextChange? ==> formData == old(formData).Set(c.field, c.value)
      ensures c.PrivacyChange? ==> formData == old(formData).(privacy := c.checked)
      ensures errors == old(errors).Clear(c.Name())
    {
      match c {
        case TextChange(f, v) => formData := formData.Set(f, v);
        case PrivacyChange(b) => formData := formData.(privacy := b);
      }
      if Truthy(errors.Get(c.Name())) {
        errors := errors.Clear(c.Name());
      }
    }

    /** `validateForm`: run every field's checks into a fresh error object,
        store it, and report whether it has no property. */
    method ValidateForm() returns (ok: bool)
      requires Valid()
      modifies this`errors
      ensures Valid()
      ensures errors == Quote.Errors(formData)
      ensures ok <==> errors == Quote.NO_ERRORS
      ensures ok <==> Quote.Acceptable(formData)
    {
      var d := formData;
      var name := CheckRequired(d.name, "validation.name.required");
      var companyName := CheckLimited(d.companyName, Quote.COMPANY_NAME_LIMIT,
        "validation.companyName.required", "validation.companyName.limit");
      var email := CheckEmail(d.email);
      var confirmEmail := Check(d.email != d.confirmEmail, "validation.email.mismatch");
      var phoneNumber := CheckRequired(d.phoneNumber, "validation.phone.required");
      var address := CheckLimited(d.address, Quote.ADDRESS_LIMIT,
        "validation.address.required", "validation.address.limit");
      var projectType := CheckRequired(d.projectType, "validation.projectType.required");
      var startDate := CheckRequired(d.startDate, "validation.startDate.required");
      var endDate := CheckRequired(d.endDate, "validation.endDate.required");
      var equipment := CheckLimited(d.equipment, Quote.EQUIPMENT_LIMIT,
        "validation.equipment.required", "validation.equipment.limit");
      var requests := Check(WordCount(d.requests) > Quote.REQUESTS_WORD_LIMIT, "validation.requests.limit");
      var privacy := Check(!d.privacy, "validation.privacy.required");
      var newErrors := Quote.QuoteErrors(name, companyName, email, confirmEmail, phoneNumber,
        address, projectType, startDate, endDate, equipment, requests, privacy);
      errors := newErrors;
      ok := newErrors.Count() == 0;
      Quote.CountZeroIffEmpty(newErrors);
      Quote.ErrorsEmptyIffAcceptable(d);
    }

    /** `handleSubmit`: on success alert and log the record; the record is
        never reset. */
    method HandleSubmit()
      requires Valid()
      modifies this`errors, this`outbox
      ensures Valid()
      ensures errors == Quote.Errors(formData)
      ensures Quote.Acceptable(formData) ==>
                outbox == old(outbox) + [Alert(t("contact.form.successMessage")), LogQuote(formData)]
      ensures !Quote.Acceptable(formData) ==> outbox == old(outbox)
    {
      var ok := ValidateForm();
      if ok {
        outbox := outbox + [Alert(t("contact.form.successMessage")), LogQuote(formData)];
      }
    }

    // -------------------------------------------------------------------
    // The callback form
    // -------------------------------------------------------------------

    /** `handleCallbackChange`. */
    method HandleCallbackChange(f: Callback.TextField, value: string)
      requires Valid()
      modifies this`callbackData, this`callbackErrors
      ensures Valid()
      ensures callbackData == old(callbackData).Set(f, value)
      ensures callbackErrors == old(callbackErrors).Clear(f.Key())
    {
      callbackData := callbackData.Set(f, value);
      if Truthy(callbackErrors.Get(f.Key())) {
        callbackErrors := callbackErrors.Clear(f.Key());
      }
    }

    /** `validateCallbackForm`. */
    method ValidateCallbackForm() returns (ok: bool)
      requires Valid()
      modifies this`callbackErrors
      ensures Valid()
      ensures callbackErrors == Callback.Errors(callbackData)
      ensures ok <==> callbackErrors == Callback.NO_ERRORS
      ensures ok <==> forall f: Callback.TextField :: callbackData.Get(f) != ""
    {
      var d := callbackData;
      var callbackName := CheckRequired(d.callbackName, "validation.name.required");
      var callbackCompanyName := CheckRequired(d.callbackCompanyName, "validation.companyName.required");
      var callbackPhoneNumber := CheckRequired(d.callbackPhoneNumber, "validation.phone.required");
      var newErrors := Callback.CallbackErrors(callbackName, callbackCompanyName, callbackPhoneNumber);
      callbackErrors := newErrors;
      ok := newErrors.Count() == 0;
      Callback.CountZeroIffEmpty(newErrors);
      Callback.ErrorsEmptyIffFilled(d);
    }

    /** `handleCallbackSubmit`: on success alert, log and clear the form. */
    method HandleCallbackSubmit()
      requires Valid()
      modifies this`callbackData, this`callbackErrors, this`outbox
      ensures Valid()
      ensures callbackErrors == Callback.Errors(old(callbackData))
      ensures (forall f: Callback.TextField :: old(callbackData).Get(f) != "") ==>
                && callbackData == Callback.EMPTY
                && outbox == old(outbox)
                   + [Alert(t("contact.callback.successMessage")), LogCallback(old(callbackData))]
      ensures !(forall f: Callback.TextField :: old(callbackData).Get(f) != "") ==>
                callbackData == old(callbackData) && outbox == old(outbox)
    {
      var ok := ValidateCallbackForm();
      if ok {
        outbox := outbox + [Alert(t("contact.callback.successMessage")), LogCallback(callbackData)];
        callbackData := Callback.EMPTY;
      }
    }

    // -------------------------------------------------------------------
    // The consultation form
    // -------------------------------------------------------------------

    /** `handleConsultationChange`: a file input stores its first file and
        shows its name; any other input writes its value or checked state. */
    method HandleConsultationChange(c: Consultation.Change)
      requires Valid()
      modifies this`consultationData, this`consultationErrors, this`fileName
      ensures Valid()
      ensures c.TextChange? ==>
                consultationData == old(consultationData).Set(c.field, c.value) && fileName == old(fileName)
      ensures c.WhatsAppChange? ==>
                consultationData == old(consultationData).(wantsWhatsApp := c.checked) && fileName == old(fileName)
      ensures c.FileChange? ==>
                && consultationData == old(consultationData).(attachment := Consultation.FirstFile(c.files))
                && fileName == Consultation.ShownName(Consultation.FirstFile(c.files))
      ensures consultationErrors == old(consultationErrors).Clear(c.Name())
    {
      match c {
        case FileChange(files) =>
          var file := Consultation.FirstFile(files);
          consultationData := consultationData.(attachment := file);
          fileName := Consultation.ShownName(file);
        case TextChange(f, v) => consultationData := consultationData.Set(f, v);
        case WhatsAppChange(b) => consultationData := consultationData.(wantsWhatsApp := b);
      }
      if Truthy(consultationErrors.Get(c.Name())) {
        consultationErrors := consultationErrors.Clear(c.Name());
      }
    }

    /** `validateConsultationForm`. */
    method ValidateConsultationForm() returns (ok: bool)
      requires Valid()
      modifies this`consultationErrors
      ensures Valid()
      ensures consultationErrors == Consultation.Errors(consultationData)
      ensures ok <==> consultationErrors == Consultation.NO_ERRORS
      ensures ok <==> Consultation.Acceptable(consultationData)
    {
      var d := consultationData;
      var fullName := CheckRequired(d.fullName, "validation.fullName.required");
      var email := CheckEmail(d.email);
      var phone := CheckRequired(d.phone, "validation.phone.required");
      var topic := CheckRequired(d.topic, "validation.topic.required");
      var otherTopic := Check(d.topic == Consultation.OTHER_TOPIC && d.otherTopic == "",
        "validation.otherTopic.required");
      var newErrors := Consultation.ConsultationErrors(fullName, email, phone, topic, otherTopic, None);
      consultationErrors := newErrors;
      ok := newErrors.Count() == 0;
      Consultation.CountZeroIffEmpty(newErrors);
      Consultation.ErrorsEmptyIffAcceptable(d);
    }

    /** `handleConsultationSubmit`: on success open WhatsApp with the built
        message, alert, and clear the form and the shown file name. */
    method HandleConsultationSubmit()
      requires Valid()
      modifies this`consultationData, this`consultationErrors, this`fileName, this`outbox
      ensures Valid()
      ensures consultationErrors == Consultation.Errors(old(consultationData))
      ensures Consultation.Acceptable(old(consultationData)) ==>
                && consultationData == Consultation.EMPTY && fileName == ""
                && outbox == old(outbox)
                   + [ OpenWhatsApp(Consultation.WHATSAPP_NUMBER,
                                    Report(Consultation.HEADER, Consultation.Entries(old(consultationData)))),
                       Alert(t("contact.consultation.successMessage")) ]
      ensures !Consultation.Acceptable(old(consultationData)) ==>
                && consultationData == old(consultationData) && fileName == old(fileName)
                && outbox == old(outbox)
    {
      var ok := ValidateConsultationForm();
      if ok {
        var message := Consultation.BuildMessage(consultationData);
        outbox := outbox + [ OpenWhatsApp(Consultation.WHATSAPP_NUMBER, message),
                             Alert(t("contact.consultation.successMessage")) ];
        consultationData := Consultation.EMPTY;
        fileName := "";
      }
    }

    // -------------------------------------------------------------------
    // The tax-return form
    // -------------------------------------------------------------------

    /** `handleTaxReturnChange`: the file input stores every picked file. */
    method HandleTaxReturnChange(c: Tax.Change)
      requires Valid()
      modifies this`taxReturnData, this`taxReturnErrors
      ensures Valid()
      ensures c.TextChange? ==> taxReturnData == old(taxReturnData).Set(c.field, c.value)
      ensures c.JointReturnChange? ==> taxReturnData == old(taxReturnData).(jointReturn := c.checked)
      ensures c.FilesChange? ==> taxReturnData == old(taxReturnData).(files := c.picked)
      ensures taxReturnErrors == old(taxReturnErrors).Clear(c.Name())
    {
      match c {
        case TextChange(f, v) => taxReturnData := taxReturnData.Set(f, v);
        case JointReturnChange(b) => taxReturnData := taxReturnData.(jointReturn := b);
        case FilesChange(picked) => taxReturnData := taxReturnData.(files := picked);
      }
      if Truthy(taxReturnErrors.Get(c.Name())) {
        taxReturnErrors := taxReturnErrors.Clear(c.Name());
      }
    }

    /** `validateTaxReturnForm`. */
    method ValidateTaxReturnForm() returns (ok: bool)
      requires Valid()
      modifies this`taxReturnErrors
      ensures Valid()
      ensures taxReturnErrors == Tax.Errors(taxReturnData)
      ensures ok <==> taxReturnErrors == Tax.NO_ERRORS
      ensures ok <==> Tax.Acceptable(taxReturnData)
    {
      var d := taxReturnData;
      var fullName := CheckRequired(d.fullName, "validation.fullName.required");
      var email := CheckEmail(d.email);
      var phone := CheckRequired(d.phone, "validation.phone.required");
      var taxYear := CheckRequired(d.taxYear, "validation.taxYear.required");
      var newErrors := Tax.TaxReturnErrors(fullName, email, phone, taxYear);
      taxReturnErrors := newErrors;
      ok := newErrors.Count() == 0;
      Tax.CountZeroIffEmpty(newErrors);
      Tax.ErrorsEmptyIffAcceptable(d);
    }

    /** `handleTaxReturnSubmit`: on success log the subject, body and files,
        navigate to the `mailto:` address, alert, and clear the form. */
    method HandleTaxReturnSubmit()
      requires Valid()
      modifies this`taxReturnData, this`taxReturnErrors, this`outbox
      ensures Valid()
      ensures taxReturnErrors == Tax.Errors(old(taxReturnData))
      ensures Tax.Acceptable(old(taxReturnData)) ==>
                var subject := Tax.Subject(t("contact.taxReturn.title"), old(taxReturnData));
                var body := Report(Tax.HEADER, Tax.Entries(old(taxReturnData))) + "\n" + Tax.FOOTER;
                && taxReturnData == Tax.EMPTY
                && outbox == old(outbox)
                   + [ LogTaxReturn(subject, body, old(taxReturnData).files),
                       Mailto(Tax.MAIL_ADDRESS, subject, body),
                       Alert(t("contact.taxReturn.successMessage")) ]
      ensures !Tax.Acceptable(old(taxReturnData)) ==>
                taxReturnData == old(taxReturnData) && outbox == old(outbox)
    {
      var ok := ValidateTaxReturnForm();
      if ok {
        var subject := Tax.Subject(t("contact.taxReturn.title"), taxReturnData);
        var body := Tax.BuildBody(taxReturnData);
        outbox := outbox + [ LogTaxReturn(subject, body, taxReturnData.files),
                             Mailto(Tax.MAIL_ADDRESS, subject, body),
                             Alert(t("contact.taxReturn.successMessage")) ];
        taxReturnData := Tax.EMPTY;
      }
    }
  }
}
