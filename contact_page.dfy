/**
 * The contact page's state: the form data, the per-field error map, the
 * submitting flag and the submission status, with the change handler and
 * the submit handler that update them.
 *
 * The submit handler is asynchronous with one suspension point, the wait
 * for the (simulated) transport. It is modelled as two methods: the part
 * that runs up to the wait, and the continuation that runs when the wait
 * ends, resolved or rejected.
 */
module ContactPage {
  import opened ContactSchema

  /** The status banner below the form. */
  datatype Status = Idle | Success | Error

  /** How the awaited transport ended. */
  datatype Outcome = Resolved | Rejected

  /** The error-collecting loop of the submit handler: every issue writes
      its message under its field, later issues overwriting earlier ones. */
  method CollectFieldErrors(issues: seq<Issue>) returns (fieldErrors: map<Field, Msg>)
    ensures fieldErrors == ErrorMap(issues)
  {
    fieldErrors := map[];
    var i := 0;
    while i < |issues|
      invariant 0 <= i <= |issues|
      invariant fieldErrors == ErrorMap(issues[..i])
    {
      assert issues[..i + 1][..i] == issues[..i];
      fieldErrors := fieldErrors[issues[i].field := issues[i].message];
      i := i + 1;
    }
    assert issues[..|issues|] == issues;
  }

  /** The body of the submit handler's `try` block up to the wait: parse the
      form; when that fails, fold the reported issues into the error map.
      The form is valid exactly when every field passes its rule, and the
      errors are then exactly the failing fields, each with the message of
      its last failing check. */
  method ParseForm(form: ContactForm, isEmail: string -> bool) returns (valid: bool, fieldErrors: map<Field, Msg>)
    ensures valid <==> AllPass(form, isEmail)
    ensures valid ==> fieldErrors == map[]
    ensures !valid ==> fieldErrors == ExpectedErrors(form, isEmail) && fieldErrors != map[]
    ensures RuleMessagesOnly(fieldErrors)
  {
    var parsed := Validate(form, isEmail);
    fieldErrors := map[];
    if parsed.Err? {
      fieldErrors := CollectFieldErrors(parsed.error);
      ExpectedErrorsEmpty(form, isEmail);
      ExpectedErrorsMessages(form, isEmail);
    }
    valid := parsed.Ok?;
  }

  class Page {
    /** Email syntax as the validation library decides it. */
    const isEmail: string -> bool

    var formData: ContactForm
    var errors: map<Field, Msg>
    var isSubmitting: bool
    var submitStatus: Status

    /** Every error shown is one of the messages of its field's rule, and
        no error is shown while a submission is in flight. */
    ghost predicate Valid()
      reads this
    {
      RuleMessagesOnly(errors) && (isSubmitting ==> errors == map[])
    }

    /** The initial state: empty fields, no errors, idle. */
    constructor(isEmail: string -> bool)
      ensures Valid()
      ensures this.isEmail == isEmail
      ensures formData == EmptyForm && errors == map[]
      ensures !isSubmitting && submitStatus == Idle
    {
      this.isEmail := isEmail;
      formData := EmptyForm;
      errors := map[];
      isSubmitting := false;
      submitStatus := Idle;
    }

    /** The user edits field `f`: its value becomes `value`, and the error
        shown for `f`, if any, is cleared. Nothing else changes. */
    method HandleChange(f: Field, value: string)
      requires Valid()
      modifies this
      ensures Valid()
      ensures formData == old(formData).With(f, value)
      ensures errors == old(errors) - {f}
      ensures f !in errors
      ensures isSubmitting == old(isSubmitting) && submitStatus == old(submitStatus)
    {
      formData := formData.With(f, value);
      if f in errors && Text(errors[f]) != "" {
        errors := errors - {f};
      }
    }

    /** The submit handler up to the wait. Errors are cleared and the form
        is parsed. When it parses, the handler is left waiting with the
        submitting flag up (`awaiting`); otherwise the error map shows,
        for each failing field, the message of its last failing check,
        and the flag is lowered again. The form and the status banner are
        left as they were. */
    method HandleSubmit() returns (awaiting: bool)
      requires Valid() && !isSubmitting
      modifies this
      ensures Valid()
      ensures awaiting <==> AllPass(old(formData), isEmail)
      ensures isSubmitting == awaiting
      ensures errors == if awaiting then map[] else ExpectedErrors(old(formData), isEmail)
      ensures formData == old(formData) && submitStatus == old(submitStatus)
    {
      // The handler sees the form as it was when the page last rendered.
      var form := formData;
      isSubmitting := true;
      errors := map[];
      var valid, fieldErrors := ParseForm(form, isEmail);
      if !valid {
        errors := fieldErrors;
        isSubmitting := false;
      }
      awaiting := valid;
    }

    /** The submit handler after the wait: on success the banner says so
        and the form is emptied; on a rejection the banner shows the error
        and the form is kept. Either way the submitting flag is lowered. */
    method ResumeSubmit(outcome: Outcome)
      requires Valid() && isSubmitting
      modifies this
      ensures Valid()
      ensures !isSubmitting && errors == map[]
      ensures outcome == Resolved ==> formData == EmptyForm && submitStatus == Success
      ensures outcome == Rejected ==> formData == old(formData) && submitStatus == Error
    {
      isSubmitting := false;
      match outcome
      case Resolved =>
        submitStatus := Success;
        formData := EmptyForm;
      case Rejected =>
        submitStatus := Error;
    }

    /** One whole submission, with no edits during the wait: the flag is
        down afterwards whatever happened. A form that fails shows its
        errors and keeps its data and banner; a form that parses shows no
        errors and ends in success with an empty form, or in an error
        banner with the data kept. */
    method Submit(outcome: Outcome)
      requires Valid() && !isSubmitting
      modifies this
      ensures Valid() && !isSubmitting
      ensures !AllPass(old(formData), isEmail) ==>
                errors == ExpectedErrors(old(formData), isEmail)
                && formData == old(formData) && submitStatus == old(submitStatus)
      ensures AllPass(old(formData), isEmail) && outcome == Resolved ==>
                errors == map[] && formData == EmptyForm && submitStatus == Success
      ensures AllPass(old(formData), isEmail) && outcome == Rejected ==>
                errors == map[] && formData == old(formData) && submitStatus == Error
    {
      var awaiting := HandleSubmit();
      if awaiting {
        ResumeSubmit(outcome);
      }
    }
  }
}
