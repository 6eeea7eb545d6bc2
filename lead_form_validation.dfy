/**
 * The frontend lead form schema. Unlike the backend schema it requires an
 * e-mail address and a status, checks the e-mail with its own pattern, and
 * reports enum failures with zod's built-in message.
 */
module LeadFormValidation {
  import opened Wrappers
  import opened Text
  import opened LeadEntity
  import opened Patterns
  import opened ZodIssues
  import LeadValidation

  datatype LeadForm = LeadForm(
    name: string,
    email: string,
    phone: string,
    source: string,
    status: string,
    notes: string)

  /** The values `z.enum` lists for the source field. */
  const FormSources: set<string> := {"website", "referral", "cold"}

  /** The values `z.enum` lists for the status field. */
  const FormStatuses: set<string> := {"new", "contacted", "qualified", "won", "lost"}

  /** An enum field: no issue for a listed value, zod's built-in message otherwise. */
  function EnumIssues(value: string, names: set<string>, field: string): (r: seq<Issue>)
    ensures r == [] <==> value in names
    ensures r != [] ==> r == [Issue([field], InvalidEnumValue)]
  {
    if value in names then [] else [Issue([field], InvalidEnumValue)]
  }

  /** The form lists exactly the sources of the lead entity. */
  lemma FormSourcesAreSources(text: string)
    ensures text in FormSources <==> ParseSource(text).Some?
  {
  }

  /** The form lists exactly the statuses of the lead entity. */
  lemma FormStatusesAreStatuses(text: string)
    ensures text in FormStatuses <==> ParseStatus(text).Some?
  {
  }

  function LeadFormIssues(f: LeadForm): seq<Issue> {
    Check(|f.name| >= 2, "name", "Name must be at least 2 characters")
    + Check(|f.name| <= 100, "name", "Name must not exceed 100 characters")
    + Check(|f.email| >= 1, "email", "Email is required")
    + Check(IsEmail(f.email), "email", "Invalid email address")
    + Check(|f.phone| >= 1, "phone", "Phone number is required")
    + Check(IsPhone(f.phone), "phone", "Invalid phone number format")
    + EnumIssues(f.source, FormSources, "source")
    + EnumIssues(f.status, FormStatuses, "status")
    + Check(|f.notes| <= 500, "notes", "Notes must not exceed 500 characters")
  }

  /** The form is accepted exactly when every field rule holds. */
  lemma LeadFormAcceptsExactly(f: LeadForm)
    ensures LeadFormIssues(f) == [] <==>
      && 2 <= |f.name| <= 100
      && IsEmail(f.email)
      && IsPhone(f.phone)
      && ParseSource(f.source).Some?
      && ParseStatus(f.status).Some?
      && |f.notes| <= 500
  {
    FormSourcesAreSources(f.source);
    FormStatusesAreStatuses(f.status);
    if IsEmail(f.email) {
      EmailNotShort(f.email);
    }
    if IsPhone(f.phone) {
      PhoneNotEmpty();
      assert f.phone != "";
    }
  }

  /**
   * An empty e-mail is refused by the form, with both e-mail messages, while
   * the backend schema accepts it as "no e-mail".
   */
  lemma EmptyEmailOnlyBackendAccepts(f: LeadForm, isEmail: string -> bool)
    requires f.email == ""
    ensures Issue(["email"], Custom("Email is required")) in LeadFormIssues(f)
    ensures Issue(["email"], Custom("Invalid email address")) in LeadFormIssues(f)
    ensures LeadValidation.EmailIssues(Some(""), isEmail) == []
  {
    if IsEmail("") {
      EmailNotShort("");
    }
    var front := Check(|f.name| >= 2, "name", "Name must be at least 2 characters")
      + Check(|f.name| <= 100, "name", "Name must not exceed 100 characters");
    var emailPart := Check(|f.email| >= 1, "email", "Email is required")
      + Check(IsEmail(f.email), "email", "Invalid email address");
    assert emailPart == [Issue(["email"], Custom("Email is required")), Issue(["email"], Custom("Invalid email address"))];
    assert LeadFormIssues(f)[|front|] == emailPart[0];
    assert LeadFormIssues(f)[|front| + 1] == emailPart[1];
  }
}
