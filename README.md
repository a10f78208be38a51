# Contact page forms

This project models the `ContactPage` component of the Ella Personnel site
(`components/CalendarView.tsx`). The page has four independent forms and a
tab selector:

- a quote request with eleven inputs and a consent checkbox;
- a callback request;
- a consultation request, sent as a WhatsApp message;
- an annual tax-return request, sent as a `mailto:` e-mail.

Each form has:

- a field record;
- an error object holding at most one translation key per field;
- a change handler, which writes the named field and clears that field's
  error;
- a validator, which recomputes the whole error object;
- a submit handler, which acts only when the validator accepts.

The model is split into modules:

- `Text`: the string primitives the validators use. These are JavaScript's
  `length` in UTF-16 code units, the token count
  `split(/\s+/).filter(s => s).length`, and the unanchored email test
  `\S+@\S+\.\S+`.
- `FormErrors`: the four kinds of field check, as functions, and
  imperative methods that run one field's checks. They are a required
  check, a required check overwritten by a length check, the email check
  (whose pattern test only runs for a present value), and a check of an
  arbitrary condition (the email mismatch, the token limit of `requests`,
  the missing consent, the missing free-text topic).
- `QuoteForm`, `CallbackForm`, `ConsultationForm` and `TaxReturnForm`: for
  each form, the record and its change events, and the error object as a
  datatype with one optional key per property of the TypeScript interface.
  Also the errors the validator computes (`Errors`) and an independent
  statement of when a record is accepted (`Acceptable`). The consultation
  and tax-return modules also hold the message and body builders.
- `Messages`: `Report`, the text a line-by-line builder produces, which
  specifies the builders `ConsultationForm.BuildMessage` and
  `TaxReturnForm.BuildBody`; `Lines`, which reads a text back as
  `split('\n')` does; and the lemmas that read a report back line by line.
- `ContactPage`: the component as a class. Its fields are the state
  variables of the component, plus `outbox`, which records every browser
  call the handlers make (alert, console log, WhatsApp window, `mailto:`
  navigation), in order.

## Model

| member | source | states |
|---|---|---|
| ContactPage.Component.constructor | components/CalendarView.tsx:91-126 | every form starts with empty strings, unchecked boxes, no attachment and no errors; the quote tab is selected |
| ContactPage.Component.SetActiveTab | components/CalendarView.tsx:316-318 | a tab button selects its tab and changes nothing else |
| ContactPage.Component.HandleChange | components/CalendarView.tsx:130-137 | the named input alone is written (its value, or the checked state for `privacy`), and the error under that name is dropped while every other error stays |
| ContactPage.Component.ValidateForm | components/CalendarView.tsx:139-159 | the stored errors are exactly the quote rules' outcome, and the result is true exactly when no error was stored, which is exactly when the record is acceptable |
| ContactPage.Component.HandleSubmit | components/CalendarView.tsx:161-167 | the errors are recomputed; only an acceptable record alerts the success message and then logs the record; the record is never reset |
| ContactPage.Component.HandleCallbackChange | components/CalendarView.tsx:170-176 | the named input alone is written and its error alone is dropped |
| ContactPage.Component.ValidateCallbackForm | components/CalendarView.tsx:178-185 | the stored errors are the three required checks; the result is true exactly when all three inputs are non-empty |
| ContactPage.Component.HandleCallbackSubmit | components/CalendarView.tsx:187-194 | only a fully filled record alerts, logs the record it had and resets to empty strings; otherwise the record and outbox are unchanged |
| ContactPage.Component.HandleConsultationChange | components/CalendarView.tsx:197-212 | a file input stores its first file (or none) and shows its name (or the empty string); a text input or select writes its value; the checkbox writes its checked state; only the named error is dropped |
| ContactPage.Component.ValidateConsultationForm | components/CalendarView.tsx:214-224 | the stored errors are the consultation rules' outcome, and the result is true exactly when the record is acceptable |
| ContactPage.Component.HandleConsultationSubmit | components/CalendarView.tsx:226-248 | only an acceptable record opens the WhatsApp chat with the built message, then alerts, then resets the record and the shown file name; otherwise nothing but the errors changes |
| ContactPage.Component.HandleTaxReturnChange | components/CalendarView.tsx:251-263 | the files input stores every picked file; a text input or the year select writes its value; the checkbox writes its checked state; only the named error is dropped |
| ContactPage.Component.ValidateTaxReturnForm | components/CalendarView.tsx:265-274 | the stored errors are the tax-return rules' outcome, and the result is true exactly when the record is acceptable |
| ContactPage.Component.HandleTaxReturnSubmit | components/CalendarView.tsx:276-295 | only an acceptable record logs the subject, body and files, then navigates to the `mailto:` link for `info@ella-personnel.nl` with that subject and body, then alerts and resets; otherwise nothing but the errors changes |
| QuoteForm.QuoteData.Set | components/CalendarView.tsx:133 | writing an input's value changes that field only and keeps the consent flag |
| QuoteForm.QuoteErrors.Get | components/CalendarView.tsx:134 | looking up a property of a sound error object never yields an empty message; a name that is not a property reads as absent |
| QuoteForm.QuoteErrors.Clear | components/CalendarView.tsx:134-136 | the named property reads as absent afterwards, every other property is kept, clearing an absent one changes nothing, and soundness is kept |
| QuoteForm.Errors | components/CalendarView.tsx:140-156 | the error object the quote validator builds is sound: every property it assigns is a non-empty translation key |
| QuoteForm.CountZeroIffEmpty | components/CalendarView.tsx:158 | counting the properties of an error object gives zero exactly for the empty object |
| QuoteForm.ErrorsEmptyIffAcceptable | components/CalendarView.tsx:139-158 | the quote validator reports nothing exactly when every required input is filled, the three length ceilings hold, the email matches the pattern and equals its confirmation, `requests` has at most 500 non-whitespace runs, and consent is given |
| QuoteForm.EmailErrors | components/CalendarView.tsx:144-145 | an empty email gives `validation.email.required`, a non-empty one not matching the pattern gives `validation.email.invalid`, and the email error is absent exactly when the pattern matches |
| QuoteForm.ConfirmEmailErrors | components/CalendarView.tsx:146 | `confirmEmail` is in error exactly when it differs from `email`, with `validation.email.mismatch` |
| QuoteForm.LengthLimitErrors | components/CalendarView.tsx:142-154 | for `companyName`, `address` and `equipment`, over the ceiling (100, 100, 500 code units) gives `.limit`, empty gives `.required`, anything else no error |
| QuoteForm.RequestsErrors | components/CalendarView.tsx:155 | `requests` is in error exactly when the split-and-filter token count exceeds 500, which is exactly when it has more than 500 maximal non-whitespace runs |
| QuoteForm.MissingFieldReported | components/CalendarView.tsx:141-154 | any empty text input except `requests` makes the validator report something |
| QuoteForm.MissingFieldReportedUnderItsName | components/CalendarView.tsx:141-154 | every empty input except `requests` and `confirmEmail` is reported under its own name |
| QuoteForm.ExampleAccepted | components/CalendarView.tsx:139-158 | a concrete filled-in request with matching emails and consent passes validation |
| CallbackForm.CallbackData.Set | components/CalendarView.tsx:172 | writing an input changes that field only |
| CallbackForm.CallbackErrors.Get | components/CalendarView.tsx:173 | looking up a property of a sound error object never yields an empty message |
| CallbackForm.Errors | components/CalendarView.tsx:179-182 | the error object the callback validator builds is sound |
| CallbackForm.CallbackErrors.Clear | components/CalendarView.tsx:173-175 | the named property reads as absent afterwards and every other property is kept |
| CallbackForm.ErrorsAreMissingFields | components/CalendarView.tsx:178-185 | each input is in error exactly when it is empty, under its own name and with its `.required` key, and no other name is ever reported |
| CallbackForm.ErrorsEmptyIffFilled | components/CalendarView.tsx:178-185 | the callback validator reports nothing exactly when all three inputs are non-empty |
| ConsultationForm.ConsultationData.Set | components/CalendarView.tsx:206 | writing an input changes that field only and keeps the checkbox and attachment |
| ConsultationForm.FirstFile | components/CalendarView.tsx:201 | the attachment is present exactly when a file was picked, and is then the first one |
| ConsultationForm.ShownFirstName | components/CalendarView.tsx:201-203 | after a file change the shown name is the first picked file's name, or empty when none was picked |
| ConsultationForm.ConsultationErrors.Get | components/CalendarView.tsx:209 | looking up a property of a sound error object never yields an empty message |
| ConsultationForm.Errors | components/CalendarView.tsx:215-221 | the error object the consultation validator builds is sound |
| ConsultationForm.ConsultationErrors.Clear | components/CalendarView.tsx:209-211 | the named property reads as absent afterwards and every other property is kept |
| ConsultationForm.ErrorsEmptyIffAcceptable | components/CalendarView.tsx:214-223 | the consultation validator reports nothing exactly when name, phone and topic are filled, the email matches, and a free-text topic is given for `Inne` |
| ConsultationForm.EmailErrors | components/CalendarView.tsx:217-218 | the same three email outcomes as the quote form |
| ConsultationForm.TopicErrors | components/CalendarView.tsx:220-221 | `otherTopic` is in error exactly when the topic is `Inne` and no free text is given; `topic` exactly when it is empty; `description` never |
| ConsultationForm.ReportedTopic | components/CalendarView.tsx:229 | the reported topic is the picked topic or the free text, the free text for `Inne`, and never empty for an accepted record |
| ConsultationForm.Entries | components/CalendarView.tsx:231-236 | the message has six field lines, and the description line is never empty thanks to the `Brak opisu` fallback |
| ConsultationForm.BuildMessage | components/CalendarView.tsx:229-236 | the message grown line by line is the title, a blank line and one `lead value` line per field, in order |
| ConsultationForm.AcceptedEntriesFilled | components/CalendarView.tsx:229-236 | for an accepted record every line of the message carries a non-empty value, and the topic line carries the free text for `Inne` |
| ConsultationForm.MessageLines | components/CalendarView.tsx:230-236 | provided no value spans lines, the message read back line by line is its title, a blank line, the six field lines and the empty piece after the final break |
| ConsultationForm.MessageLinesAnyDescription | components/CalendarView.tsx:230-236 | provided the five single-line inputs hold no line break, the message read back line by line is its title, a blank line and their five lines, followed by the lines of the description entry, the first of which starts with `Opis: `, whatever line breaks the description text area holds |
| ConsultationForm.TopicAndDescriptionLines | components/CalendarView.tsx:229-236 | provided the five single-line inputs hold no line break, the sent message's seventh line reports `otherTopic` for `Inne` and `topic` otherwise, and the eighth starts with `Opis: `, even for a multi-line description; for a description without line breaks the message has nine pieces and the eighth is the description, falling back to `Brak opisu` |
| ConsultationForm.PickedTopicAccepted | components/CalendarView.tsx:307-312 | picking any topic option other than `Inne` leaves neither `topic` nor `otherTopic` in error |
| TaxReturnForm.TaxReturnData.Set | components/CalendarView.tsx:258 | writing an input changes that field only and keeps the files and checkbox |
| TaxReturnForm.TaxReturnErrors.Get | components/CalendarView.tsx:260 | looking up a property of a sound error object never yields an empty message |
| TaxReturnForm.Errors | components/CalendarView.tsx:266-271 | the error object the tax-return validator builds is sound |
| TaxReturnForm.TaxReturnErrors.Clear | components/CalendarView.tsx:260-262 | the named property reads as absent afterwards and every other property is kept |
| TaxReturnForm.ErrorsEmptyIffAcceptable | components/CalendarView.tsx:265-273 | the tax-return validator reports nothing exactly when name, phone and tax year are filled and the email matches; the national id, files and checkbox play no part |
| TaxReturnForm.EmailErrors | components/CalendarView.tsx:268-269 | the same three email outcomes as the quote form, and the national id is never in error |
| TaxReturnForm.Subject | components/CalendarView.tsx:279 | the mail subject starts with the translated title and continues with ` – ` and the full name |
| TaxReturnForm.Entries | components/CalendarView.tsx:281-286 | the body has six field lines, and the national-id line is never empty thanks to the `Nie podano` fallback |
| TaxReturnForm.FooterIsOneLine | components/CalendarView.tsx:287 | the closing sentence of the body has no line break |
| TaxReturnForm.BuildBody | components/CalendarView.tsx:280-287 | the body grown line by line is the title, a blank line, one line per field, a blank line and the closing sentence |
| TaxReturnForm.AcceptedEntriesFilled | components/CalendarView.tsx:281-286 | for an accepted record every field line carries a non-empty value, and a missing national id reads `Nie podano` |
| TaxReturnForm.BodyLines | components/CalendarView.tsx:280-287 | provided no value spans lines (all are single-line inputs, a select or a checkbox), the body read back line by line is its title, a blank line, the six field lines, a blank line and the closing sentence |
| TaxReturnForm.BsnAndJointReturnLines | components/CalendarView.tsx:282-286 | provided no value spans lines, the body has ten pieces, its national-id line reads `Nie podano` when none was given, and its joint-return line reads `Tak` or `Nie` |
| TaxReturnForm.PickedYearAccepted | components/CalendarView.tsx:314 | every option of the year select is one line and passes the year check |
| FormErrors.Required | components/CalendarView.tsx:141 | a required check fails exactly for the empty string, with the given key |
| FormErrors.Limited | components/CalendarView.tsx:142-143 | a required check followed by a length check fails exactly for an empty or too long value; too long wins |
| FormErrors.EmailRule | components/CalendarView.tsx:144-145 | the email check passes exactly when the pattern matches; empty gives `.required` and a present non-matching value `.invalid` |
| FormErrors.When | components/CalendarView.tsx:146 | a conditional check fails exactly when its condition holds, with the given key |
| FormErrors.Present | components/CalendarView.tsx:158 | a property adds to the key count exactly when it is present |
| FormErrors.CheckRequired | components/CalendarView.tsx:141 | running a required check leaves the outcome `Required` states |
| FormErrors.Check | components/CalendarView.tsx:146 | running a conditional check leaves the outcome `When` states |
| FormErrors.CheckLimited | components/CalendarView.tsx:142-143 | running the required check and then the overwriting length check leaves the outcome `Limited` states |
| FormErrors.CheckEmail | components/CalendarView.tsx:144-145 | running the email check leaves the outcome `EmailRule` states |
| Messages.Or | components/CalendarView.tsx:236 | an empty value is replaced by the fallback and a non-empty one is kept |
| Messages.YesNo | components/CalendarView.tsx:234 | a checkbox is reported as a non-empty one-line word, `Tak` exactly when it is checked |
| Messages.Report | components/CalendarView.tsx:230-236 | a text grown from a header by appending lines keeps that header as its prefix |
| Messages.ReportIsRender | components/CalendarView.tsx:230-236 | a text grown by appending each entry's line is its header followed by all entry lines in order |
| Messages.LinesOfRender | components/CalendarView.tsx:230-236 | reading rendered entries back line by line recovers each entry's line in order, provided no entry spans lines |
| Messages.LinesOfReportOpenLast | components/CalendarView.tsx:230-236 | a titled report whose entries but the last are single lines reads back as title, blank, those entry lines, then the last entry's own lines, the first of which starts with its lead |
| Messages.LinesOfReportThenLine | components/CalendarView.tsx:280-287 | a titled report followed by a blank line and one last line reads back as title, blank, entry lines, blank, last line |
| Text.Utf16Length | components/CalendarView.tsx:143 | a string's JavaScript length lies between its number of characters and twice that |
| Text.Split | components/CalendarView.tsx:155 | splitting on whitespace runs yields at least one piece, and no piece holds whitespace |
| Text.SplitKeepsText | components/CalendarView.tsx:155 | the pieces of the split, laid end to end, are the text with its whitespace removed: every non-whitespace character, in order, and nothing else |
| Text.NonEmpty | components/CalendarView.tsx:155 | filtering keeps every non-empty piece as often as it occurs and drops every empty one |
| Text.Words | components/CalendarView.tsx:155 | every token is non-empty and free of whitespace |
| Text.WordCountIsRunCount | components/CalendarView.tsx:155 | the split-and-filter token count equals the number of maximal non-whitespace runs |
| Text.NoWordsIffBlank | components/CalendarView.tsx:155 | a text has no tokens exactly when it is empty or all whitespace |
| Text.ShortTextIsNoEmail | components/CalendarView.tsx:145 | no text shorter than five characters passes the email test |
| Text.EmailHasAtAndDot | components/CalendarView.tsx:145 | a text passing the email test has an `@` after its first character and a `.` after that, before its last character |
| Text.IncompleteAddressesRejected | components/CalendarView.tsx:145 | `a@b` and `a@.c` fail the email test |
| Text.SpacedAddressRejected | components/CalendarView.tsx:145 | `a @b.c` fails the email test, since every long enough substring holds the space |
| Text.EmbeddedAddressAccepted | components/CalendarView.tsx:145 | the test is unanchored: `x a@b.c y` passes because it contains `a@b.c` |

## Left out

- Rendering: the JSX markup, the `FormInput`/`FormTextarea` components, CSS classes and animations are presentation only.
- `t`: the translation lookup is an opaque function given to the constructor. Errors hold the literal translation keys, and alerts carry `t` applied to the success key.
- Browser calls: `alert`, `console.log`, `window.open` and the `mailto:` navigation are recorded as effects in `outbox`. `encodeURIComponent` and the URL strings are not modelled; the effects carry the number, address, subject and body instead.
- `preventDefault` on the submit event has no effect on the state and is not modelled.
- Line breaks in the sent texts: the line-by-line readings of the tax-return body and the full reading of the consultation message assume that no value holds a line break. Those values come from single-line inputs, selects and checkboxes, whose values the browser keeps free of line breaks. The consultation description is a text area, and `ConsultationForm.MessageLinesAnyDescription` and `ConsultationForm.TopicAndDescriptionLines` state what holds whatever it contains.
- Files: a `File` is modelled by its name only, and a `FileList` as a sequence of those; a missing list is the empty sequence.
- Whitespace: `\s` is a fixed subset (space, tab, line feed, vertical tab, form feed, carriage return, no-break space), not the full Unicode class.
- Regular expression: the email test is stated as the existence of a matching substring, not as a regex engine.
- Undefined properties: a property set to `undefined` when an error is cleared reads exactly like an absent one everywhere the page looks at it, so it is modelled as absent. `Object.keys` would still count it, but the page only counts the keys of a freshly built error object.
- State updates: React applies the updater functions given to the state setters later, in order, and re-renders. The model applies each update at once, which gives the same final state for these handlers, since each handler reads only the state of the render it was called in.
- Tax years: the year select's options are numbers in the source; the model keeps the strings the select yields.
- ContactPage.Component.ValidateForm: the checks of each field run in their own method and the error object is assembled afterwards. Each check writes only its own field, so the order across fields does not change the result. The overwriting within a field (the length checks) is kept.
- components/MapView.tsx (image rotation timers and hover state) and data/slides.ts (static slide data) are not part of this model.
