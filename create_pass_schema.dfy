/**
 * The create-pass form schema (src/forms/createPassSchema.ts). `safeParse`
 * runs every check of every field, in declaration order, and collects one
 * issue per failed check, tagged with the field's name. Email syntax and
 * `Date.parse` are library predicates, passed in as `Checkers`.
 */
module CreatePassSchema {
  import opened Types

  const MaxNameLength: int := 100

  datatype Field = FirstName | LastName | Email | ExpiresAt

  datatype Issue = Issue(path: Field, message: string)

  /** The form values; `expiresAt` may be absent. */
  datatype FormData = FormData(firstName: string, lastName: string, email: string, expiresAt: Option<string>)

  /** `z.email()`'s syntax test, and whether `Date.parse` gives a number (not NaN). */
  datatype Checkers = Checkers(isEmail: string -> bool, parsesAsDate: string -> bool)

  datatype ParseResult = Success(data: FormData) | Failure(issues: seq<Issue>)

  /** `.min(1, required).max(100, tooLong)` on a string field. */
  function NameIssues(field: Field, s: string, required: string, tooLong: string): (r: seq<Issue>)
    ensures r == [] <==> ValidName(s)
    ensures |r| <= 1
    ensures forall i :: 0 <= i < |r| ==> r[i].path == field
  {
    (if |s| < 1 then [Issue(field, required)] else [])
    + (if |s| > MaxNameLength then [Issue(field, tooLong)] else [])
  }

  /** `z.email(...).min(1, ...)`: the format check runs first, then the length check. */
  function EmailIssues(s: string, c: Checkers): (r: seq<Issue>)
    ensures r == [] <==> ValidEmail(s, c)
    ensures |r| <= 2
    ensures forall i :: 0 <= i < |r| ==> r[i].path == Email
    ensures s == [] ==> r[|r| - 1] == Issue(Email, "Email is required")
  {
    (if !c.isEmail(s) then [Issue(Email, "Please enter a valid email address")] else [])
    + (if |s| < 1 then [Issue(Email, "Email is required")] else [])
  }

  /** `.optional().refine((val) => !val || !isNaN(Date.parse(val)))` */
  function ExpiresAtIssues(v: Option<string>, c: Checkers): (r: seq<Issue>)
    ensures r == [] <==> ValidExpiry(v, c)
    ensures |r| <= 1
    ensures forall i :: 0 <= i < |r| ==> r[i].path == ExpiresAt
  {
    match v
    case None => []
    case Some(s) => if s == [] || c.parsesAsDate(s) then [] else [Issue(ExpiresAt, "Please enter a valid date")]
  }

  /** Declaration order of the fields, which is the order zod reports them in. */
  function Rank(f: Field): nat
  {
    match f
    case FirstName => 0
    case LastName => 1
    case Email => 2
    case ExpiresAt => 3
  }

  /** All issues of the record: at most five, grouped by field in declaration order. */
  function Issues(d: FormData, c: Checkers): (r: seq<Issue>)
    ensures |r| <= 5
    ensures forall i, j :: 0 <= i < j < |r| ==> Rank(r[i].path) <= Rank(r[j].path)
  {
    NameIssues(FirstName, d.firstName, "First name is required", "First name is too long")
    + NameIssues(LastName, d.lastName, "Last name is required", "Last name is too long")
    + EmailIssues(d.email, c)
    + ExpiresAtIssues(d.expiresAt, c)
  }

  /** `createPassSchema.safeParse(d)` */
  function SafeParse(d: FormData, c: Checkers): (r: ParseResult)
    ensures r.Success? ==> r.data == d
    ensures r.Failure? ==> 1 <= |r.issues| <= 5
    ensures r.Failure? ==> forall i, j :: 0 <= i < j < |r.issues| ==> Rank(r.issues[i].path) <= Rank(r.issues[j].path)
  {
    var issues := Issues(d, c);
    if issues == [] then Success(d) else Failure(issues)
  }

  // What each field accepts, stated independently of the issue lists.

  predicate ValidName(s: string)
  {
    1 <= |s| <= MaxNameLength
  }

  predicate ValidEmail(s: string, c: Checkers)
  {
    s != [] && c.isEmail(s)
  }

  predicate ValidExpiry(v: Option<string>, c: Checkers)
  {
    v.None? || v.value == [] || c.parsesAsDate(v.value)
  }

  predicate FieldValid(f: Field, d: FormData, c: Checkers)
  {
    match f
    case FirstName => ValidName(d.firstName)
    case LastName => ValidName(d.lastName)
    case Email => ValidEmail(d.email, c)
    case ExpiresAt => ValidExpiry(d.expiresAt, c)
  }

  /** The issues reported under field f: exactly those of f's own checks. */
  function IssuesOf(f: Field, d: FormData, c: Checkers): seq<Issue>
  {
    match f
    case FirstName => NameIssues(FirstName, d.firstName, "First name is required", "First name is too long")
    case LastName => NameIssues(LastName, d.lastName, "Last name is required", "Last name is too long")
    case Email => EmailIssues(d.email, c)
    case ExpiresAt => ExpiresAtIssues(d.expiresAt, c)
  }

  /** A field reports an issue exactly when it is invalid, and every issue carries that field's path. */
  lemma FieldIssuesIff(f: Field, d: FormData, c: Checkers)
    ensures IssuesOf(f, d, c) == [] <==> FieldValid(f, d, c)
    ensures forall i :: 0 <= i < |IssuesOf(f, d, c)| ==> IssuesOf(f, d, c)[i].path == f
  {
  }

  /** The record parses exactly when every field is valid, and then it comes back unchanged. */
  lemma SafeParseIff(d: FormData, c: Checkers)
    ensures SafeParse(d, c).Success? <==>
      FieldValid(FirstName, d, c) && FieldValid(LastName, d, c)
      && FieldValid(Email, d, c) && FieldValid(ExpiresAt, d, c)
    ensures SafeParse(d, c).Success? ==> SafeParse(d, c).data == d
  {
    FieldIssuesIff(FirstName, d, c);
    FieldIssuesIff(LastName, d, c);
    FieldIssuesIff(Email, d, c);
    FieldIssuesIff(ExpiresAt, d, c);
  }

  /** An issue's path always names an invalid field. */
  lemma IssuesNameInvalidFields(d: FormData, c: Checkers)
    ensures forall issue :: issue in Issues(d, c) ==> !FieldValid(issue.path, d, c)
  {
    FieldIssuesIff(FirstName, d, c);
    FieldIssuesIff(LastName, d, c);
    FieldIssuesIff(Email, d, c);
    FieldIssuesIff(ExpiresAt, d, c);
    assert Issues(d, c) == IssuesOf(FirstName, d, c) + IssuesOf(LastName, d, c)
                           + IssuesOf(Email, d, c) + IssuesOf(ExpiresAt, d, c);
  }

  /** The first issue names the first invalid field in declaration order. */
  lemma FirstIssueIsFirstInvalidField(d: FormData, c: Checkers)
    requires SafeParse(d, c).Failure?
    ensures var first := SafeParse(d, c).issues[0].path;
      && (first == FirstName <==> !ValidName(d.firstName))
      && (first == LastName <==> ValidName(d.firstName) && !ValidName(d.lastName))
      && (first == Email <==> ValidName(d.firstName) && ValidName(d.lastName) && !ValidEmail(d.email, c))
  {
    FieldIssuesIff(FirstName, d, c);
    FieldIssuesIff(LastName, d, c);
    FieldIssuesIff(Email, d, c);
    FieldIssuesIff(ExpiresAt, d, c);
  }

  /** The test fixture: a complete, well-formed record. */
  function John(expiresAt: Option<string>): FormData
  {
    FormData("John", "Doe", "john@example.com", expiresAt)
  }

  /** An empty first name, a bad email, a 101-character first name and a bad date are each rejected under their field; an empty date is accepted. */
  lemma SchemaExamples(c: Checkers, longName: string)
    requires c.isEmail("john@example.com") && !c.isEmail("not-an-email") && !c.parsesAsDate("not-a-date")
    requires |longName| == 101
    ensures SafeParse(John(None), c).Success?
    ensures SafeParse(John(Some("")), c).Success?
    ensures SafeParse(John(None).(firstName := ""), c).Failure?
    ensures SafeParse(John(None).(firstName := ""), c).issues[0].path == FirstName
    ensures SafeParse(John(None).(lastName := ""), c).issues[0].path == LastName
    ensures SafeParse(John(None).(email := "not-an-email"), c).issues[0].path == Email
    ensures SafeParse(John(Some("not-a-date")), c).Failure?
    ensures SafeParse(John(None).(firstName := longName), c).Failure?
  {
  }
}
