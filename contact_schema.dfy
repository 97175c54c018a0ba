/**
 * The contact form's validation schema: a table of per-field rules over
 * five string fields, the issues a parse reports in schema order, and the
 * fold of those issues into a per-field error map.
 *
 * Email syntax is decided by the validation library, whose code is not
 * part of this model: every member takes it as a parameter `isEmail`.
 */
module ContactSchema {
  import opened JsText

  datatype Field = Name | Email | Phone | Subject | Message

  /** The raw values of the five inputs, as the page holds them. */
  datatype ContactForm = ContactForm(name: string, email: string, phone: string, subject: string, message: string)
  {
    function Get(f: Field): string {
      match f
      case Name => name
      case Email => email
      case Phone => phone
      case Subject => subject
      case Message => message
    }

    /** The form with field `f` replaced by `v`. */
    function With(f: Field, v: string): (r: ContactForm)
      ensures r.Get(f) == v
      ensures forall g :: g != f ==> r.Get(g) == Get(g)
    {
      match f
      case Name => this.(name := v)
      case Email => this.(email := v)
      case Phone => this.(phone := v)
      case Subject => this.(subject := v)
      case Message => this.(message := v)
    }
  }

  const EmptyForm := ContactForm("", "", "", "", "")

  /** The messages the schema reports, one per check. */
  datatype Msg =
    | NameTooShort | NameTooLong
    | EmailInvalid | EmailTooLong
    | PhoneInvalid | PhoneTooLong
    | SubjectTooShort | SubjectTooLong
    | MessageTooShort | MessageTooLong

  /** The text shown next to the field. */
  function Text(m: Msg): (t: string)
    ensures |t| > 0
  {
    match m
    case NameTooShort => "Name must be at least 2 characters"
    case NameTooLong => "Name must be less than 100 characters"
    case EmailInvalid => "Please enter a valid email address"
    case EmailTooLong => "Email must be less than 255 characters"
    case PhoneInvalid => "Please enter a valid phone number"
    case PhoneTooLong => "Phone number too long"
    case SubjectTooShort => "Subject must be at least 3 characters"
    case SubjectTooLong => "Subject must be less than 200 characters"
    case MessageTooShort => "Message must be at least 10 characters"
    case MessageTooLong => "Message must be less than 2000 characters"
  }

  /** One check of a string field, applied to the trimmed value, with the
      message reported when it fails. */
  datatype Check =
    | MinLength(bound: nat, message: Msg)
    | MaxLength(bound: nat, message: Msg)
    | EmailSyntax(message: Msg)

  /** The two checks of a field, in declaration order; `orEmpty` says that
      the raw empty string is accepted as an alternative. */
  datatype FieldRule = FieldRule(first: Check, second: Check, orEmpty: bool)

  /** The rule table. */
  function Rule(f: Field): FieldRule {
    match f
    case Name => FieldRule(MinLength(2, NameTooShort), MaxLength(100, NameTooLong), false)
    case Email => FieldRule(EmailSyntax(EmailInvalid), MaxLength(255, EmailTooLong), false)
    case Phone => FieldRule(MinLength(10, PhoneInvalid), MaxLength(20, PhoneTooLong), true)
    case Subject => FieldRule(MinLength(3, SubjectTooShort), MaxLength(200, SubjectTooLong), false)
    case Message => FieldRule(MinLength(10, MessageTooShort), MaxLength(2000, MessageTooLong), false)
  }

  /** The messages a field can be reported with. */
  function RuleMessages(f: Field): set<Msg> {
    {Rule(f).first.message, Rule(f).second.message}
  }

  /** Lengths are JavaScript lengths, in UTF-16 code units; both bounds are inclusive. */
  predicate Holds(c: Check, s: string, isEmail: string -> bool) {
    match c
    case MinLength(n, _) => Utf16Length(s) >= n
    case MaxLength(n, _) => Utf16Length(s) <= n
    case EmailSyntax(_) => isEmail(s)
  }

  /** A field holding `raw` is accepted: both checks hold of the trimmed
      value, or the field also admits the empty string and `raw` is empty. */
  predicate Passes(f: Field, raw: string, isEmail: string -> bool) {
    var rule := Rule(f);
    (rule.orEmpty && raw == "")
    || (Holds(rule.first, Trim(raw), isEmail) && Holds(rule.second, Trim(raw), isEmail))
  }

  /** A validation issue: the field it is about and its message. */
  datatype Issue = Issue(field: Field, message: Msg)

  /** The issues reported for one field holding `raw`: every check runs on
      the trimmed value (a failure does not stop the next check) and each
      failing one reports its message, in order; the empty-string
      alternative, when the field has one, silences them all. */
  function FieldIssues(f: Field, raw: string, isEmail: string -> bool): (issues: seq<Issue>)
    ensures issues == [] <==> Passes(f, raw, isEmail)
    ensures forall i | 0 <= i < |issues| :: issues[i].field == f && issues[i].message in RuleMessages(f)
  {
    var rule := Rule(f);
    var s := Trim(raw);
    if rule.orEmpty && raw == "" then []
    else
      (if Holds(rule.first, s, isEmail) then [] else [Issue(f, rule.first.message)])
      + (if Holds(rule.second, s, isEmail) then [] else [Issue(f, rule.second.message)])
  }

  /** All issues of a parse: field by field, in the order the schema
      declares the fields. */
  function Issues(form: ContactForm, isEmail: string -> bool): seq<Issue> {
    FieldIssues(Name, form.name, isEmail) + FieldIssues(Email, form.email, isEmail)
    + FieldIssues(Phone, form.phone, isEmail) + FieldIssues(Subject, form.subject, isEmail)
    + FieldIssues(Message, form.message, isEmail)
  }

  datatype Result<T, E> = Ok(value: T) | Err(error: E)

  /** The form with every field trimmed: what a successful parse returns. */
  function Trimmed(form: ContactForm): ContactForm {
    ContactForm(Trim(form.name), Trim(form.email), Trim(form.phone), Trim(form.subject), Trim(form.message))
  }

  /** Every field of the form passes its rule. */
  predicate AllPass(form: ContactForm, isEmail: string -> bool) {
    Passes(Name, form.name, isEmail) && Passes(Email, form.email, isEmail)
    && Passes(Phone, form.phone, isEmail) && Passes(Subject, form.subject, isEmail)
    && Passes(Message, form.message, isEmail)
  }

  /** `parse`: the trimmed data when every field passes, else the issues. */
  function Validate(form: ContactForm, isEmail: string -> bool): (r: Result<ContactForm, seq<Issue>>)
    ensures r.Ok? <==> AllPass(form, isEmail)
    ensures r.Ok? ==> r.value == Trimmed(form)
    ensures r.Err? ==> r.error != [] && ErrorMap(r.error) == ExpectedErrors(form, isEmail)
  {
    if AllPass(form, isEmail) then Ok(Trimmed(form))
    else
      ErrorMapOfIssues(form, isEmail);
      Err(Issues(form, isEmail))
  }

  /** The error map built from a list of issues: each issue writes its
      message under its field, so a later issue for a field overwrites an
      earlier one. */
  function ErrorMap(issues: seq<Issue>): (m: map<Field, Msg>)
    ensures m.Keys == set i | 0 <= i < |issues| :: issues[i].field
  {
    if issues == [] then map[]
    else
      var last := issues[|issues| - 1];
      var m := ErrorMap(issues[..|issues| - 1]);
      m[last.field := last.message]
  }

  /** The message shown for a failing field: that of its last failing check. */
  function FieldMessage(f: Field, raw: string, isEmail: string -> bool): (m: Msg)
    requires !Passes(f, raw, isEmail)
    ensures m in RuleMessages(f)
  {
    var rule := Rule(f);
    if Holds(rule.second, Trim(raw), isEmail) then rule.first.message else rule.second.message
  }

  /** The error map, field by field: exactly the failing fields, each with
      its message. */
  function ExpectedErrors(form: ContactForm, isEmail: string -> bool): map<Field, Msg> {
    map f | f in [Name, Email, Phone, Subject, Message] && !Passes(f, form.Get(f), isEmail)
      :: FieldMessage(f, form.Get(f), isEmail)
  }

  /** Every entry of an error map is one of its field's rule messages. */
  predicate RuleMessagesOnly(m: map<Field, Msg>) {
    forall f | f in m :: m[f] in RuleMessages(f)
  }

  /** The error map holds only rule messages. */
  lemma ExpectedErrorsMessages(form: ContactForm, isEmail: string -> bool)
    ensures RuleMessagesOnly(ExpectedErrors(form, isEmail))
  {
  }

  /** Folding two lists of issues one after the other: the entries of the
      second list win. */
  lemma {:induction false} ErrorMapAppend(a: seq<Issue>, b: seq<Issue>)
    ensures ErrorMap(a + b) == ErrorMap(a) + ErrorMap(b)
    decreases |b|
  {
    if b != [] {
      var n := |b| - 1;
      assert (a + b)[..|a + b| - 1] == a + b[..n];
      ErrorMapAppend(a, b[..n]);
    } else {
      assert a + b == a;
    }
  }

  /** The error map of one field: empty when the field passes, else the
      field with its message. */
  function FieldEntry(f: Field, raw: string, isEmail: string -> bool): map<Field, Msg> {
    if Passes(f, raw, isEmail) then map[] else map[f := FieldMessage(f, raw, isEmail)]
  }

  /** Every issue of the list is about field `f`. */
  predicate AllAbout(issues: seq<Issue>, f: Field) {
    forall i | 0 <= i < |issues| :: issues[i].field == f
  }

  /** The error map of one field's issues: empty when there are none, else
      the message of the last one. */
  function BlockEntry(f: Field, issues: seq<Issue>): map<Field, Msg> {
    if issues == [] then map[] else map[f := issues[|issues| - 1].message]
  }

  /** Folding issues about one field keeps the last one's message. */
  lemma ErrorMapOfBlock(f: Field, issues: seq<Issue>)
    requires AllAbout(issues, f)
    ensures ErrorMap(issues) == BlockEntry(f, issues)
    decreases |issues|
  {
  }

  /** Folding five blocks of issues, one block per field, keeps the last
      message of each non-empty block. */
  lemma ErrorMapOfBlocks(n: seq<Issue>, e: seq<Issue>, p: seq<Issue>, s: seq<Issue>, m: seq<Issue>)
    requires AllAbout(n, Name) && AllAbout(e, Email) && AllAbout(p, Phone)
    requires AllAbout(s, Subject) && AllAbout(m, Message)
    ensures ErrorMap(n + e + p + s + m)
         == BlockEntry(Name, n) + BlockEntry(Email, e) + BlockEntry(Phone, p)
          + BlockEntry(Subject, s) + BlockEntry(Message, m)
  {
    ErrorMapAppend(n, e);
    ErrorMapAppend(n + e, p);
    ErrorMapAppend(n + e + p, s);
    ErrorMapAppend(n + e + p + s, m);
    ErrorMapOfBlock(Name, n);
    ErrorMapOfBlock(Email, e);
    ErrorMapOfBlock(Phone, p);
    ErrorMapOfBlock(Subject, s);
    ErrorMapOfBlock(Message, m);
  }

  /** The block of one field is its entry. */
  lemma FieldBlockEntry(f: Field, raw: string, isEmail: string -> bool)
    ensures AllAbout(FieldIssues(f, raw, isEmail), f)
    ensures BlockEntry(f, FieldIssues(f, raw, isEmail)) == FieldEntry(f, raw, isEmail)
  {
  }

  /** Where the merged entries hold a field, it is that field's entry. */
  lemma MergedEntryAt(a: map<Field, Msg>, b: map<Field, Msg>, c: map<Field, Msg>,
                      d: map<Field, Msg>, e: map<Field, Msg>, f: Field)
    requires a.Keys <= {Name} && b.Keys <= {Email} && c.Keys <= {Phone}
    requires d.Keys <= {Subject} && e.Keys <= {Message}
    ensures var u := a + b + c + d + e;
            var own := match f case Name => a case Email => b case Phone => c case Subject => d case Message => e;
            (f in u <==> f in own) && (f in u ==> u[f] == own[f])
  {
  }

  /** At field `f`, the error map is that field's entry. */
  lemma ExpectedEntryAt(form: ContactForm, isEmail: string -> bool, f: Field)
    ensures f in ExpectedErrors(form, isEmail) <==> f in FieldEntry(f, form.Get(f), isEmail)
    ensures f in ExpectedErrors(form, isEmail)
        ==> ExpectedErrors(form, isEmail)[f] == FieldEntry(f, form.Get(f), isEmail)[f]
  {
    assert f in [Name, Email, Phone, Subject, Message];
  }

  /** A field has an entry in the error map exactly when it fails its rule. */
  lemma ExpectedErrorsKeys(form: ContactForm, isEmail: string -> bool, f: Field)
    ensures f in ExpectedErrors(form, isEmail) <==> !Passes(f, form.Get(f), isEmail)
  {
    assert f in [Name, Email, Phone, Subject, Message];
  }

  /** The error map is empty exactly when every field passes. */
  lemma ExpectedErrorsEmpty(form: ContactForm, isEmail: string -> bool)
    ensures ExpectedErrors(form, isEmail) == map[] <==> AllPass(form, isEmail)
  {
    if AllPass(form, isEmail) {
      NoExpectedErrors(form, isEmail);
    } else {
      SomeExpectedError(form, isEmail);
    }
  }

  /** A form whose fields all pass has no errors. */
  lemma NoExpectedErrors(form: ContactForm, isEmail: string -> bool)
    requires AllPass(form, isEmail)
    ensures ExpectedErrors(form, isEmail) == map[]
  {
    var m := ExpectedErrors(form, isEmail);
    ExpectedErrorsKeys(form, isEmail, Name);
    ExpectedErrorsKeys(form, isEmail, Email);
    ExpectedErrorsKeys(form, isEmail, Phone);
    ExpectedErrorsKeys(form, isEmail, Subject);
    ExpectedErrorsKeys(form, isEmail, Message);
    SameOnEveryField(m, map[]);
  }

  /** A form with a failing field has an error. */
  lemma SomeExpectedError(form: ContactForm, isEmail: string -> bool)
    requires !AllPass(form, isEmail)
    ensures ExpectedErrors(form, isEmail) != map[]
  {
    ExpectedErrorsKeys(form, isEmail, Name);
    ExpectedErrorsKeys(form, isEmail, Email);
    ExpectedErrorsKeys(form, isEmail, Phone);
    ExpectedErrorsKeys(form, isEmail, Subject);
    ExpectedErrorsKeys(form, isEmail, Message);
  }

  /** The five fields' entries, merged. */
  function MergedEntries(form: ContactForm, isEmail: string -> bool): map<Field, Msg> {
    FieldEntry(Name, form.name, isEmail) + FieldEntry(Email, form.email, isEmail)
    + FieldEntry(Phone, form.phone, isEmail) + FieldEntry(Subject, form.subject, isEmail)
    + FieldEntry(Message, form.message, isEmail)
  }

  /** Folding the issues of a parse merges the fields' entries. */
  lemma IssuesErrorMap(form: ContactForm, isEmail: string -> bool)
    ensures ErrorMap(Issues(form, isEmail)) == MergedEntries(form, isEmail)
  {
    FieldBlockEntry(Name, form.name, isEmail);
    FieldBlockEntry(Email, form.email, isEmail);
    FieldBlockEntry(Phone, form.phone, isEmail);
    FieldBlockEntry(Subject, form.subject, isEmail);
    FieldBlockEntry(Message, form.message, isEmail);
    ErrorMapOfBlocks(FieldIssues(Name, form.name, isEmail), FieldIssues(Email, form.email, isEmail),
                     FieldIssues(Phone, form.phone, isEmail), FieldIssues(Subject, form.subject, isEmail),
                     FieldIssues(Message, form.message, isEmail));
  }

  /** Two error maps are equal when they agree on each of the five fields. */
  lemma SameOnEveryField(x: map<Field, Msg>, y: map<Field, Msg>)
    requires (Name in x <==> Name in y) && (Name in x ==> x[Name] == y[Name])
    requires (Email in x <==> Email in y) && (Email in x ==> x[Email] == y[Email])
    requires (Phone in x <==> Phone in y) && (Phone in x ==> x[Phone] == y[Phone])
    requires (Subject in x <==> Subject in y) && (Subject in x ==> x[Subject] == y[Subject])
    requires (Message in x <==> Message in y) && (Message in x ==> x[Message] == y[Message])
    ensures x == y
  {
    forall f
      ensures f in x <==> f in y
      ensures f in x ==> x[f] == y[f]
    {
      match f
      case Name =>
      case Email =>
      case Phone =>
      case Subject =>
      case Message =>
    }
    assert x.Keys == y.Keys;
  }

  /** The merged entries are the error map, field by field. */
  lemma MergedIsExpected(form: ContactForm, isEmail: string -> bool)
    ensures MergedEntries(form, isEmail) == ExpectedErrors(form, isEmail)
  {
    var en := FieldEntry(Name, form.name, isEmail);
    var ee := FieldEntry(Email, form.email, isEmail);
    var ep := FieldEntry(Phone, form.phone, isEmail);
    var es := FieldEntry(Subject, form.subject, isEmail);
    var em := FieldEntry(Message, form.message, isEmail);
    MergedEntryAt(en, ee, ep, es, em, Name);
    MergedEntryAt(en, ee, ep, es, em, Email);
    MergedEntryAt(en, ee, ep, es, em, Phone);
    MergedEntryAt(en, ee, ep, es, em, Subject);
    MergedEntryAt(en, ee, ep, es, em, Message);
    ExpectedEntryAt(form, isEmail, Name);
    ExpectedEntryAt(form, isEmail, Email);
    ExpectedEntryAt(form, isEmail, Phone);
    ExpectedEntryAt(form, isEmail, Subject);
    ExpectedEntryAt(form, isEmail, Message);
    SameOnEveryField(MergedEntries(form, isEmail), ExpectedErrors(form, isEmail));
  }

  /** Folding the issues of a parse gives exactly the failing fields, each
      with the message of its last failing check. */
  lemma ErrorMapOfIssues(form: ContactForm, isEmail: string -> bool)
    ensures ErrorMap(Issues(form, isEmail)) == ExpectedErrors(form, isEmail)
  {
    IssuesErrorMap(form, isEmail);
    MergedIsExpected(form, isEmail);
  }

  // Closed forms of the rule table, field by field.

  lemma NameRule(raw: string, isEmail: string -> bool)
    ensures Passes(Name, raw, isEmail) <==> 2 <= Utf16Length(Trim(raw)) <= 100
  {
  }

  lemma EmailRule(raw: string, isEmail: string -> bool)
    ensures Passes(Email, raw, isEmail) <==> isEmail(Trim(raw)) && Utf16Length(Trim(raw)) <= 255
  {
  }

  lemma PhoneRule(raw: string, isEmail: string -> bool)
    ensures Passes(Phone, raw, isEmail) <==> raw == "" || 10 <= Utf16Length(Trim(raw)) <= 20
  {
  }

  lemma SubjectRule(raw: string, isEmail: string -> bool)
    ensures Passes(Subject, raw, isEmail) <==> 3 <= Utf16Length(Trim(raw)) <= 200
  {
  }

  lemma MessageRule(raw: string, isEmail: string -> bool)
    ensures Passes(Message, raw, isEmail) <==> 10 <= Utf16Length(Trim(raw)) <= 2000
  {
  }

  /** A name of blanks is rejected: it trims to the empty string. */
  lemma BlankNameRejected(raw: string, isEmail: string -> bool)
    requires AllWhitespace(raw)
    ensures !Passes(Name, raw, isEmail)
    ensures FieldIssues(Name, raw, isEmail) == [Issue(Name, NameTooShort)]
  {
    TrimIsInfix(raw);
  }

  /** The phone may be left empty, but a phone of blanks is rejected. */
  lemma BlankPhoneRejected(raw: string, isEmail: string -> bool)
    requires raw != "" && AllWhitespace(raw)
    ensures !Passes(Phone, raw, isEmail)
    ensures FieldIssues(Phone, raw, isEmail) == [Issue(Phone, PhoneInvalid)]
  {
    TrimIsInfix(raw);
  }

  /** An address that is both malformed and too long gets two issues, and
      the later one, the length message, is the one the field shows. */
  lemma EmailTooLongWins(raw: string, isEmail: string -> bool)
    requires !isEmail(Trim(raw)) && Utf16Length(Trim(raw)) > 255
    ensures FieldIssues(Email, raw, isEmail) == [Issue(Email, EmailInvalid), Issue(Email, EmailTooLong)]
    ensures FieldMessage(Email, raw, isEmail) == EmailTooLong
  {
  }

  /** The values of the subject drop-down; the first is the placeholder. */
  const SubjectOptions: seq<string> :=
    ["", "General Inquiry", "Partnership", "E-Commerce Services", "Logistics Services",
     "Import/Export", "Support", "Other"]

  /** A subject without blanks at either end passes when it has 3 to 100
      code points: whatever they are, that is 3 to 200 code units. */
  lemma {:induction false} PlainSubjectPasses(s: string, isEmail: string -> bool)
    requires Unpadded(s) && 3 <= |s| <= 100
    ensures Passes(Subject, s, isEmail)
  {
    TrimUnpadded(s);
    Utf16LengthBounds(s);
  }

  /** Every real option has no blanks at either end and 3 to 100 code points. */
  lemma SubjectOptionsPlain()
    ensures forall i | 1 <= i < |SubjectOptions| ::
      Unpadded(SubjectOptions[i]) && 3 <= |SubjectOptions[i]| <= 100
  {
  }

  /** The placeholder fails the subject rule and every real option passes it. */
  lemma SubjectOptionsRule(isEmail: string -> bool)
    ensures !Passes(Subject, SubjectOptions[0], isEmail)
    ensures forall i | 1 <= i < |SubjectOptions| :: Passes(Subject, SubjectOptions[i], isEmail)
  {
    SubjectOptionsPlain();
    forall i | 1 <= i < |SubjectOptions|
      ensures Passes(Subject, SubjectOptions[i], isEmail)
    {
      PlainSubjectPasses(SubjectOptions[i], isEmail);
    }
  }

  /** Parsing the data a successful parse returned succeeds again and
      returns it unchanged. */
  lemma RevalidateTrimmed(form: ContactForm, isEmail: string -> bool)
    requires Validate(form, isEmail).Ok?
    ensures Validate(Trimmed(form), isEmail) == Validate(form, isEmail)
  {
    PassesTrimmed(Name, form.name, isEmail);
    PassesTrimmed(Email, form.email, isEmail);
    PassesTrimmed(Phone, form.phone, isEmail);
    PassesTrimmed(Subject, form.subject, isEmail);
    PassesTrimmed(Message, form.message, isEmail);
    assert Trimmed(Trimmed(form)) == Trimmed(form);
  }

  /** A field that passes still passes once trimmed. */
  lemma PassesTrimmed(f: Field, raw: string, isEmail: string -> bool)
    requires Passes(f, raw, isEmail)
    ensures Passes(f, Trim(raw), isEmail)
    ensures Trim(Trim(raw)) == Trim(raw)
  {
    TrimIdempotent(raw);
    if raw == "" {
      TrimUnpadded(raw);
    }
  }
}
