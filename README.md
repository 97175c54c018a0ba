# Contact form and animated counter

A Dafny model of the two pieces of behaviour in a marketing web site:

- **The contact page** (`src/pages/Contact.tsx`). Five text fields are validated against a
  per-field rule table. Each value is trimmed, then its JavaScript length is checked against
  inclusive bounds, and the email also gets a syntax check. The phone may be left empty.
  The validation issues are folded into a per-field error map. The page keeps the form data,
  the error map, a submitting flag and a status banner (`idle`, `success`, `error`), and
  updates them on every edit and on submit.
- **The animated counter** (`AnimatedCounter` in `src/components/ui/animations.tsx`). Once its
  element is in view, it counts from 0 up to a target in steps of `ceil(value / 60)`, one step
  per timer tick. The last tick shows the target.

Modules:

- `JsText` (`js_text.dfy`): the JavaScript `String.prototype.trim` (section 22.1.3.32 of
  ECMA-262, with the WhiteSpace and LineTerminator sets of its sections 12.2 and 12.3).
  Also the `length` of a string, counted in UTF-16 code units.
- `ContactSchema` (`contact_schema.dfy`): the rule table, the issues a parse reports in schema
  order, `Validate`, and the error map. The error map is given two ways: as the fold the page
  runs (`ErrorMap`) and field by field (`ExpectedErrors`). The two are proved equal.
- `ContactPage` (`contact_page.dfy`): the page state as a class `Page`, with the change
  handler and the submit handler. The error-collecting loop is a method proved against
  `ErrorMap`.
- `AnimatedCounter` (`animated_counter.dfy`): the step, the tick count and the sequence of
  displayed values, with the timer loop as a method proved against that sequence.

Three behaviours of the code that a reader of the page might not expect, all modelled as written:

- A field that fails two checks shows the message of the *last* one, because the fold
  overwrites. For example, an email that is malformed and longer than 255 code units shows
  "Email must be less than 255 characters".
- "Submitting" is a separate boolean flag, not a fourth status. A submit whose validation fails
  leaves the status banner as it was, which may be `success` from an earlier submit.
- The maximum-length messages say "less than N", but the bounds are inclusive: a value of
  exactly N code units passes.

## Model

| member | source | states |
|---|---|---|
| JsText.TrimShape | src/pages/Contact.tsx:20-24 | `trim` never lengthens its input and leaves no whitespace at either end |
| JsText.TrimIsInfix | src/pages/Contact.tsx:20-24 | `trim` keeps an infix with only whitespace around it; the result is empty exactly when the input is all whitespace |
| JsText.TrimStartShape | src/pages/Contact.tsx:20-24 | removing leading whitespace keeps a suffix that starts with a non-blank and drops only whitespace |
| JsText.TrimEndShape | src/pages/Contact.tsx:20-24 | removing trailing whitespace keeps a prefix that ends with a non-blank and drops only whitespace |
| JsText.TrimUnpadded | src/pages/Contact.tsx:20-24 | a value with no whitespace at either end is unchanged by `trim` |
| JsText.TrimIdempotent | src/pages/Contact.tsx:20-24 | trimming twice is trimming once |
| JsText.Utf16LengthBounds | src/pages/Contact.tsx:20-24 | the JavaScript length lies between the number of code points and twice that |
| JsText.Utf16LengthBmp | src/pages/Contact.tsx:20-24 | the JavaScript length equals the number of code points exactly when no character needs a surrogate pair |
| ContactSchema.ContactForm.With | src/pages/Contact.tsx:69-72 | replacing one field sets exactly that field and leaves the other four unchanged |
| ContactSchema.Text | src/pages/Contact.tsx:19-25 | every rule message is a non-empty string, so a stored error is always truthy |
| ContactSchema.FieldIssues | src/pages/Contact.tsx:19-25 | a field reports no issue exactly when it passes its rule; every issue it reports is about that field and carries one of its rule's messages |
| ContactSchema.Validate | src/pages/Contact.tsx:19-25 | parsing succeeds exactly when all five fields pass, and then returns the trimmed form; otherwise it reports at least one issue, and folding the issues gives the per-field error map |
| ContactSchema.ErrorMap | src/pages/Contact.tsx:93-98 | the error map's keys are exactly the fields that have an issue |
| ContactSchema.FieldMessage | src/pages/Contact.tsx:94-97 | a failing field's message is one of its rule's messages: that of its last failing check |
| ContactSchema.ExpectedErrorsMessages | src/pages/Contact.tsx:92-99 | the error map only holds rule messages of the field it is stored under |
| ContactSchema.ErrorMapAppend | src/pages/Contact.tsx:93-98 | folding two issue lists in a row merges their maps, with the second list's entries winning |
| ContactSchema.ErrorMapOfIssues | src/pages/Contact.tsx:84-98 | folding the issues of a parse gives exactly the failing fields, each with the message of its last failing check |
| ContactSchema.ExpectedErrorsKeys | src/pages/Contact.tsx:92-99 | a field has an entry in the error map exactly when it fails its rule |
| ContactSchema.ExpectedErrorsEmpty | src/pages/Contact.tsx:84-99 | the error map is empty exactly when every field passes |
| ContactSchema.NoExpectedErrors | src/pages/Contact.tsx:84-99 | a form whose fields all pass has an empty error map |
| ContactSchema.SomeExpectedError | src/pages/Contact.tsx:84-99 | a form with a failing field has a non-empty error map |
| ContactSchema.NameRule | src/pages/Contact.tsx:20 | a name passes exactly when its trimmed length is 2 to 100 |
| ContactSchema.EmailRule | src/pages/Contact.tsx:21 | an email passes exactly when the trimmed value is syntactically an address and has length at most 255 |
| ContactSchema.PhoneRule | src/pages/Contact.tsx:22 | a phone passes exactly when it is the empty string or its trimmed length is 10 to 20 |
| ContactSchema.SubjectRule | src/pages/Contact.tsx:23 | a subject passes exactly when its trimmed length is 3 to 200 |
| ContactSchema.MessageRule | src/pages/Contact.tsx:24 | a message passes exactly when its trimmed length is 10 to 2000 |
| ContactSchema.BlankNameRejected | src/pages/Contact.tsx:20 | a name made only of whitespace fails, with the single issue "too short" |
| ContactSchema.BlankPhoneRejected | src/pages/Contact.tsx:22 | a non-empty phone made only of whitespace fails, with the single issue "invalid phone number" |
| ContactSchema.EmailTooLongWins | src/pages/Contact.tsx:21 | a malformed email longer than 255 gets both issues in order, and the field shows the length message |
| ContactSchema.PlainSubjectPasses | src/pages/Contact.tsx:23 | a subject with no whitespace at either end and 3 to 100 code points passes |
| ContactSchema.SubjectOptionsPlain | src/pages/Contact.tsx:255-262 | every real option of the subject drop-down has no whitespace at either end and 3 to 100 code points |
| ContactSchema.SubjectOptionsRule | src/pages/Contact.tsx:255-262 | the drop-down's placeholder fails the subject rule and every real option passes it |
| ContactSchema.PassesTrimmed | src/pages/Contact.tsx:19-25 | a field value that passes still passes after trimming |
| ContactSchema.RevalidateTrimmed | src/pages/Contact.tsx:19-25 | parsing the data a successful parse returned succeeds again with the same result |
| ContactPage.CollectFieldErrors | src/pages/Contact.tsx:92-98 | the error-collecting loop builds exactly the fold of the issues, later issues overwriting earlier ones |
| ContactPage.ParseForm | src/pages/Contact.tsx:83-99 | the form is valid exactly when every field passes; a valid form gives no errors; an invalid one gives the non-empty per-field error map, holding only rule messages |
| ContactPage.Page.constructor | src/pages/Contact.tsx:56-65 | the page starts with five empty fields, no errors, the flag down and the status `idle` |
| ContactPage.Page.HandleChange | src/pages/Contact.tsx:69-76 | an edit sets exactly the edited field, removes only that field's error, and changes nothing else |
| ContactPage.Page.HandleSubmit | src/pages/Contact.tsx:78-105 | up to the wait: a valid form leaves the flag up with no errors shown; an invalid one shows its per-field errors and lowers the flag; the form data and status are unchanged |
| ContactPage.Page.ResumeSubmit | src/pages/Contact.tsx:86-105 | after the wait: success empties the form and sets `success`; a rejection keeps the form and sets `error`; the flag comes down either way |
| ContactPage.Page.Submit | src/pages/Contact.tsx:78-106 | a whole submission ends with the flag down; an invalid form shows exactly its failing fields and keeps data and status; a valid one ends in `success` with an empty form, or in `error` with the data kept |
| AnimatedCounter.Step | src/components/ui/animations.tsx:21 | the step is the target divided by 60, rounded up |
| AnimatedCounter.StepPositive | src/components/ui/animations.tsx:21 | a positive target gives a step of at least 1 |
| AnimatedCounter.TickCount | src/components/ui/animations.tsx:23-31 | the number of ticks is the least count whose steps reach the target (`ceil(value / step)`), and one tick for a target that is not positive |
| AnimatedCounter.Frames | src/components/ui/animations.tsx:23-31 | the counter shows one value per tick |
| AnimatedCounter.TickTest | src/components/ui/animations.tsx:24-29 | the running total stays below the target on every tick but the last, and reaches it on the last |
| AnimatedCounter.FramesEndOnTarget | src/components/ui/animations.tsx:25-27 | the last value shown is the target |
| AnimatedCounter.FramesIncreasing | src/components/ui/animations.tsx:24-29 | for a positive target the values shown strictly increase, and each lies between the step and the target |
| AnimatedCounter.AtMostSixtyTicks | src/components/ui/animations.tsx:21 | the count finishes within 60 ticks |
| AnimatedCounter.HomePageCounters | src/pages/Index.tsx:48-52 | the home page's counters 500, 50, 36 and 99 take steps 9, 1, 1, 2 and 56, 50, 36, 50 ticks |
| AnimatedCounter.Animate | src/components/ui/animations.tsx:14-35 | out of view nothing is shown and the display stays 0; in view the timer shows exactly the tick sequence and the display ends on the target |

## Left out

- Email syntax: the validation library's address check is not part of this model. Every
  member takes it as a function parameter `isEmail`.
- The simulated transport delay and any real request. The end of the wait is a parameter of
  `ResumeSubmit`: resolved or rejected. The timer promise in the source always resolves, so the
  `error` banner is reached only through a rejection the model admits but the current code
  never produces.
- ContactPage.Page.HandleSubmit: requires the flag to be down. The submit button is disabled
  while a submission is in flight (`src/pages/Contact.tsx:316`), so a second submit cannot
  start.
- ContactPage.Page.HandleChange: an edit made during the wait is allowed and modelled. The
  closure of the pending handler still resets the form on success, as in the source.
- A cleared error: the source stores `undefined` under the field, and the model removes the
  key. Every reader of the map treats both the same.
- The messages are an enumeration `Msg`, with their exact texts given by `Text`.
- JavaScript strings may hold lone surrogates. A Dafny `char` is a Unicode scalar value, so
  such strings are not representable.
- Rendering, the static content tables, the WhatsApp link (`encodeURIComponent`), icons and
  animations of the page.
- AnimatedCounter.Animate: the target is an integer. The source accepts any number, and
  fractional targets are not modelled. The interval length (`incrementTime * step`), the
  timer's scheduling, its cleanup when the effect re-runs or the element unmounts, and the
  in-view detection (given as the parameter `isInView`, which latches once true) are left
  out. The effect re-running on a new target is not modelled.
- Number formatting of the display (`toLocaleString`) depends on the locale and is left out.
