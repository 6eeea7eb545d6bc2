/**
 * The backend lead schema and the `validateLead` middleware: each field of the
 * request body is checked, every failing check adds an issue, and a body with
 * any issue is answered with status 400 and one `{path, message}` per issue.
 */
module LeadValidation {
  import opened Wrappers
  import opened Text
  import opened LeadEntity
  import opened Patterns
  import opened ZodIssues

  /** A lead request body; each field is absent or a string. */
  datatype LeadBody = LeadBody(
    name: Option<string>,
    email: Option<string>,
    phone: Option<string>,
    source: Option<string>,
    status: Option<string>,
    notes: Option<string>)

  const SourceMessage := "Source must be 'website', 'referral', or 'cold'"
  const StatusMessage := "Status must be 'new', 'contacted', 'qualified', 'won', 'lost'"

  /** Name: required, 2 to 100 characters; both length checks run. */
  function NameIssues(name: Option<string>): (r: seq<Issue>)
    ensures r == [] <==> name.Some? && 2 <= |name.value| <= 100
    ensures AllAt(r, "name")
  {
    match name
    case None => [Issue(["name"], Required)]
    case Some(n) =>
      Check(|n| >= 2, "name", "Name must be at least 2 characters")
      + Check(|n| <= 100, "name", "Name must not exceed 100 characters")
  }

  /**
   * E-mail: absent, the empty string (the `literal('')` alternative), or an
   * address zod's e-mail check accepts. `isEmail` is that check.
   */
  function EmailIssues(email: Option<string>, isEmail: string -> bool): (r: seq<Issue>)
    ensures r == [] <==> email.None? || email.value == "" || isEmail(email.value)
    ensures r != [] ==> r == [Issue(["email"], Custom("Invalid email address"))]
  {
    match email
    case None => []
    case Some(e) => if e == "" || isEmail(e) then [] else [Issue(["email"], Custom("Invalid email address"))]
  }

  /** Phone: required and matching the phone pattern. */
  function PhoneIssues(phone: Option<string>): (r: seq<Issue>)
    ensures r == [] <==> phone.Some? && IsPhone(phone.value)
    ensures |r| <= 1 && AllAt(r, "phone")
  {
    match phone
    case None => [Issue(["phone"], Required)]
    case Some(p) => Check(IsPhone(p), "phone", "Invalid phone number format")
  }

  /** Source: required and one of the three sources; the custom message covers both failures. */
  function SourceIssues(source: Option<string>): (r: seq<Issue>)
    ensures r == [] <==> source.Some? && ParseSource(source.value).Some?
    ensures r != [] ==> r == [Issue(["source"], Custom(SourceMessage))]
  {
    if source.Some? && ParseSource(source.value).Some? then []
    else [Issue(["source"], Custom(SourceMessage))]
  }

  /** Status: optional, and when given one of the five statuses. */
  function StatusIssues(status: Option<string>): (r: seq<Issue>)
    ensures r == [] <==> status.None? || ParseStatus(status.value).Some?
    ensures r != [] ==> r == [Issue(["status"], Custom(StatusMessage))]
  {
    if status.None? || ParseStatus(status.value).Some? then []
    else [Issue(["status"], Custom(StatusMessage))]
  }

  /** Notes: optional, at most 500 characters. */
  function NotesIssues(notes: Option<string>): (r: seq<Issue>)
    ensures r == [] <==> notes.None? || |notes.value| <= 500
    ensures AllAt(r, "notes")
  {
    match notes
    case None => []
    case Some(n) => Check(|n| <= 500, "notes", "Notes must not exceed 500 characters")
  }

  /** All issues of the schema, field by field in the order the schema declares them. */
  function LeadSchemaIssues(body: LeadBody, isEmail: string -> bool): seq<Issue> {
    NameIssues(body.name) + EmailIssues(body.email, isEmail) + PhoneIssues(body.phone)
    + SourceIssues(body.source) + StatusIssues(body.status) + NotesIssues(body.notes)
  }

  /** The body the schema accepts, field by field. */
  predicate WellFormed(body: LeadBody, isEmail: string -> bool) {
    && body.name.Some? && 2 <= |body.name.value| <= 100
    && (body.email.None? || body.email.value == "" || isEmail(body.email.value))
    && body.phone.Some? && IsPhone(body.phone.value)
    && body.source.Some? && ParseSource(body.source.value).Some?
    && (body.status.None? || ParseStatus(body.status.value).Some?)
    && (body.notes.None? || |body.notes.value| <= 500)
  }

  /** The schema reports no issue exactly when every field rule holds. */
  lemma SchemaAcceptsExactly(body: LeadBody, isEmail: string -> bool)
    ensures LeadSchemaIssues(body, isEmail) == [] <==> WellFormed(body, isEmail)
  {
  }

  /** Every issue names one of the six fields as its path. */
  lemma IssuesNameAField(body: LeadBody, isEmail: string -> bool)
    ensures forall i :: 0 <= i < |LeadSchemaIssues(body, isEmail)| ==>
      LeadSchemaIssues(body, isEmail)[i].path in
        {["name"], ["email"], ["phone"], ["source"], ["status"], ["notes"]}
  {
    var parts := [NameIssues(body.name), EmailIssues(body.email, isEmail), PhoneIssues(body.phone),
                  SourceIssues(body.source), StatusIssues(body.status), NotesIssues(body.notes)];
    var all := LeadSchemaIssues(body, isEmail);
    assert all == parts[0] + parts[1] + parts[2] + parts[3] + parts[4] + parts[5];
    forall i | 0 <= i < |all|
      ensures all[i].path in {["name"], ["email"], ["phone"], ["source"], ["status"], ["notes"]}
    {
      var n0, n1, n2, n3, n4 := |parts[0]|, |parts[1]|, |parts[2]|, |parts[3]|, |parts[4]|;
      if i < n0 {
        assert all[i] == parts[0][i];
      } else if i < n0 + n1 {
        assert all[i] == parts[1][i - n0];
      } else if i < n0 + n1 + n2 {
        assert all[i] == parts[2][i - n0 - n1];
      } else if i < n0 + n1 + n2 + n3 {
        assert all[i] == parts[3][i - n0 - n1 - n2];
      } else if i < n0 + n1 + n2 + n3 + n4 {
        assert all[i] == parts[4][i - n0 - n1 - n2 - n3];
      } else {
        assert all[i] == parts[5][i - n0 - n1 - n2 - n3 - n4];
      }
    }
  }

  /** One entry of the 400 response: the issue's path joined with dots, and its message. */
  datatype FieldError = FieldError(path: string, message: Message)

  /** What the middleware does with a request. */
  datatype Outcome =
    | CallNext
    | Respond(status: nat, message: string, errors: seq<FieldError>)

  /** `validateLead`: pass the request on, or answer 400 with every issue. */
  function ValidateLead(body: LeadBody, isEmail: string -> bool): (r: Outcome)
    ensures r.CallNext? <==> WellFormed(body, isEmail)
    ensures r.Respond? ==>
      var issues := LeadSchemaIssues(body, isEmail);
      && r.status == 400 && r.message == "Validation failed"
      && |r.errors| == |issues| > 0
      && forall i :: 0 <= i < |issues| ==>
           r.errors[i] == FieldError(Join(issues[i].path, '.'), issues[i].message)
  {
    SchemaAcceptsExactly(body, isEmail);
    var issues := LeadSchemaIssues(body, isEmail);
    if issues == [] then CallNext
    else
      Respond(400, "Validation failed",
              seq(|issues|, i requires 0 <= i < |issues| => FieldError(Join(issues[i].path, '.'), issues[i].message)))
  }

  /** A rejected body's error paths are the bare field names. */
  lemma ErrorPathsAreFieldNames(body: LeadBody, isEmail: string -> bool)
    requires ValidateLead(body, isEmail).Respond?
    ensures forall e :: e in ValidateLead(body, isEmail).errors ==>
      e.path in {"name", "email", "phone", "source", "status", "notes"}
  {
    IssuesNameAField(body, isEmail);
    var issues := LeadSchemaIssues(body, isEmail);
    var errors := ValidateLead(body, isEmail).errors;
    forall e | e in errors ensures e.path in {"name", "email", "phone", "source", "status", "notes"} {
      var i :| 0 <= i < |errors| && errors[i] == e;
      assert issues[i].path in {["name"], ["email"], ["phone"], ["source"], ["status"], ["notes"]};
      assert Join(issues[i].path, '.') == issues[i].path[0];
    }
  }
}
