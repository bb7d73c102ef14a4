/**
 * The registration form's schema: four string fields, each with a minimum and
 * a maximum length or a format check, every failed check with its own message.
 * Like the schema library, every check of a field runs and reports its issue,
 * in the order the schema lists them; the form shows a field's first issue.
 */
module CourseForm {
  import opened Wrappers

  datatype Field = FirstName | LastName | Email | Phone

  datatype Issue = Issue(field: Field, message: string)

  datatype FormValues = FormValues(firstName: string, lastName: string, email: string, phone: string)

  const NameMaxLength := 35
  const PhoneMaxLength := 15

  const FirstNameRequired := "First name is required."
  const FirstNameTooLong := "First name can't be more than 35 characters."
  const LastNameRequired := "Last name is required."
  const LastNameTooLong := "Last name can't be more than 35 characters."
  const EmailRequired := "Email is required"
  const EmailInvalid := "Email is invalid"
  const PhoneRequired := "Phone number is required"
  const PhoneTooLong := "Phone number is too long"

  /** The form's default values: every field empty. */
  const DefaultValues := FormValues("", "", "", "")

  /** A `.min(min, message)` check followed by a `.max(max, message)` check on a string. */
  function LengthIssues(field: Field, s: string, min: nat, minMessage: string, max: nat, maxMessage: string)
    : (issues: seq<Issue>)
    ensures issues == [] <==> min <= |s| <= max
    ensures |s| < min ==> issues[0] == Issue(field, minMessage)
    ensures |s| > max && min <= max ==> issues == [Issue(field, maxMessage)]
    ensures forall i :: 0 <= i < |issues| ==> issues[i].field == field
  {
    (if |s| < min then [Issue(field, minMessage)] else [])
    + (if |s| > max then [Issue(field, maxMessage)] else [])
  }

  function FirstNameIssues(s: string): (issues: seq<Issue>)
    ensures issues == [] <==> 1 <= |s| <= NameMaxLength
    ensures forall i :: 0 <= i < |issues| ==> issues[i].field == FirstName
  {
    LengthIssues(FirstName, s, 1, FirstNameRequired, NameMaxLength, FirstNameTooLong)
  }

  function LastNameIssues(s: string): (issues: seq<Issue>)
    ensures issues == [] <==> 1 <= |s| <= NameMaxLength
    ensures forall i :: 0 <= i < |issues| ==> issues[i].field == LastName
  {
    LengthIssues(LastName, s, 1, LastNameRequired, NameMaxLength, LastNameTooLong)
  }

  function PhoneIssues(s: string): (issues: seq<Issue>)
    ensures issues == [] <==> 1 <= |s| <= PhoneMaxLength
    ensures forall i :: 0 <= i < |issues| ==> issues[i].field == Phone
  {
    LengthIssues(Phone, s, 1, PhoneRequired, PhoneMaxLength, PhoneTooLong)
  }

  /**
   * `.min(1, "Email is required").email("Email is invalid")`. The address format
   * is the schema library's, given here as the predicate `isEmail`.
   */
  function EmailIssues(s: string, isEmail: string -> bool): (issues: seq<Issue>)
    ensures issues == [] <==> s != "" && isEmail(s)
    ensures s == "" ==> issues[0] == Issue(Email, EmailRequired)
    ensures s != "" ==> issues == [] || issues == [Issue(Email, EmailInvalid)]
    ensures forall i :: 0 <= i < |issues| ==> issues[i].field == Email
  {
    (if |s| < 1 then [Issue(Email, EmailRequired)] else [])
    + (if !isEmail(s) then [Issue(Email, EmailInvalid)] else [])
  }

  /** Every issue of the object schema, field by field in the schema's order. */
  function SchemaIssues(v: FormValues, isEmail: string -> bool): (issues: seq<Issue>)
  {
    FirstNameIssues(v.firstName) + LastNameIssues(v.lastName)
    + EmailIssues(v.email, isEmail) + PhoneIssues(v.phone)
  }

  /** Whether each of the four fields passes all its checks. */
  predicate FieldsValid(v: FormValues, isEmail: string -> bool) {
    && 1 <= |v.firstName| <= NameMaxLength
    && 1 <= |v.lastName| <= NameMaxLength
    && v.email != "" && isEmail(v.email)
    && 1 <= |v.phone| <= PhoneMaxLength
  }

  /** Parsing the form values with the schema: the values themselves, or every issue found. */
  function SafeParse(v: FormValues, isEmail: string -> bool): (r: Result<FormValues, seq<Issue>>)
    ensures r.Success? <==> FieldsValid(v, isEmail)
    ensures r.Success? ==> r.value == v
    ensures r.Failure? ==> r.error != []
  {
    var issues := SchemaIssues(v, isEmail);
    if issues == [] then Success(v) else Failure(issues)
  }

  /** The message shown under a field: its first issue, if any. */
  function FieldMessage(issues: seq<Issue>, field: Field): (m: Option<string>)
    ensures m.Some? ==> Issue(field, m.value) in issues
    ensures m == None <==> forall i :: 0 <= i < |issues| ==> issues[i].field != field
  {
    if issues == [] then None
    else if issues[0].field == field then Some(issues[0].message)
    else FieldMessage(issues[1..], field)
  }

  /** `form.handleSubmit(onSubmit)`: what `onSubmit` receives, nothing when validation fails. */
  function HandleSubmit(v: FormValues, isEmail: string -> bool): (submitted: Option<FormValues>)
    ensures submitted.Some? <==> FieldsValid(v, isEmail)
    ensures submitted.Some? ==> submitted.value == v
  {
    match SafeParse(v, isEmail)
    case Success(values) => Some(values)
    case Failure(_) => None
  }

  /** The message of a field over two runs of issues: the first run's, else the second's. */
  lemma {:induction false} FieldMessageAppend(a: seq<Issue>, b: seq<Issue>, field: Field)
    ensures FieldMessage(a + b, field)
            == if FieldMessage(a, field).Some? then FieldMessage(a, field) else FieldMessage(b, field)
  {
    if a != [] {
      assert (a + b)[1..] == a[1..] + b;
      FieldMessageAppend(a[1..], b, field);
    } else {
      assert a + b == b;
    }
  }

  /** The message of a field over four runs of issues: that of the first run holding one. */
  lemma FieldMessageOfFour(a: seq<Issue>, b: seq<Issue>, c: seq<Issue>, d: seq<Issue>, field: Field)
    ensures FieldMessage(a + b + c + d, field)
            == if FieldMessage(a, field).Some? then FieldMessage(a, field)
               else if FieldMessage(b, field).Some? then FieldMessage(b, field)
               else if FieldMessage(c, field).Some? then FieldMessage(c, field)
               else FieldMessage(d, field)
  {
    FieldMessageAppend(a + b + c, d, field);
    FieldMessageAppend(a + b, c, field);
    FieldMessageAppend(a, b, field);
  }

  /** The message under each field comes from that field's own checks alone. */
  lemma FieldMessageOfSchema(v: FormValues, isEmail: string -> bool)
    ensures FieldMessage(SchemaIssues(v, isEmail), FirstName) == FieldMessage(FirstNameIssues(v.firstName), FirstName)
    ensures FieldMessage(SchemaIssues(v, isEmail), LastName) == FieldMessage(LastNameIssues(v.lastName), LastName)
    ensures FieldMessage(SchemaIssues(v, isEmail), Email) == FieldMessage(EmailIssues(v.email, isEmail), Email)
    ensures FieldMessage(SchemaIssues(v, isEmail), Phone) == FieldMessage(PhoneIssues(v.phone), Phone)
  {
    var f, l, e, p := FirstNameIssues(v.firstName), LastNameIssues(v.lastName),
                      EmailIssues(v.email, isEmail), PhoneIssues(v.phone);
    FieldMessageOfFour(f, l, e, p, FirstName);
    FieldMessageOfFour(f, l, e, p, LastName);
    FieldMessageOfFour(f, l, e, p, Email);
    FieldMessageOfFour(f, l, e, p, Phone);
  }

  /** Submitting the untouched form shows the "required" message under every field and passes nothing on. */
  lemma DefaultValuesFailRequired(isEmail: string -> bool)
    ensures FieldMessage(SchemaIssues(DefaultValues, isEmail), FirstName) == Some(FirstNameRequired)
    ensures FieldMessage(SchemaIssues(DefaultValues, isEmail), LastName) == Some(LastNameRequired)
    ensures FieldMessage(SchemaIssues(DefaultValues, isEmail), Email) == Some(EmailRequired)
    ensures FieldMessage(SchemaIssues(DefaultValues, isEmail), Phone) == Some(PhoneRequired)
    ensures HandleSubmit(DefaultValues, isEmail) == None
  {
    FieldMessageOfSchema(DefaultValues, isEmail);
    FirstNameMessages("");
    LastNameMessages("");
    EmailMessages("", isEmail);
    PhoneMessages("");
  }

  /** A first name is accepted exactly for 1 to 35 characters, with the message for each way it fails. */
  lemma FirstNameMessages(s: string)
    ensures FieldMessage(FirstNameIssues(s), FirstName) == None <==> 1 <= |s| <= NameMaxLength
    ensures |s| == 0 ==> FieldMessage(FirstNameIssues(s), FirstName) == Some(FirstNameRequired)
    ensures |s| > NameMaxLength ==> FieldMessage(FirstNameIssues(s), FirstName) == Some(FirstNameTooLong)
  {
  }

  /** A last name is accepted exactly for 1 to 35 characters, with the message for each way it fails. */
  lemma LastNameMessages(s: string)
    ensures FieldMessage(LastNameIssues(s), LastName) == None <==> 1 <= |s| <= NameMaxLength
    ensures |s| == 0 ==> FieldMessage(LastNameIssues(s), LastName) == Some(LastNameRequired)
    ensures |s| > NameMaxLength ==> FieldMessage(LastNameIssues(s), LastName) == Some(LastNameTooLong)
  {
  }

  /** A phone number is accepted exactly for 1 to 15 characters, with the message for each way it fails. */
  lemma PhoneMessages(s: string)
    ensures FieldMessage(PhoneIssues(s), Phone) == None <==> 1 <= |s| <= PhoneMaxLength
    ensures |s| == 0 ==> FieldMessage(PhoneIssues(s), Phone) == Some(PhoneRequired)
    ensures |s| > PhoneMaxLength ==> FieldMessage(PhoneIssues(s), Phone) == Some(PhoneTooLong)
  {
  }

  /** An empty email shows "Email is required"; a non-empty one shows "Email is invalid" unless it is an address. */
  lemma EmailMessages(s: string, isEmail: string -> bool)
    ensures s == "" ==> FieldMessage(EmailIssues(s, isEmail), Email) == Some(EmailRequired)
    ensures s != "" ==> FieldMessage(EmailIssues(s, isEmail), Email)
                        == if isEmail(s) then None else Some(EmailInvalid)
  {
  }
}
