/**
 * The frontend login and registration form schemas. Every check of a field
 * runs, so one field can report several issues; the registration schema's
 * cross-field rule reports a password mismatch at `confirmPassword`.
 */
module AuthValidation {
  import opened Text
  import opened Patterns
  import opened ZodIssues

  datatype LoginForm = LoginForm(email: string, password: string)

  datatype RegisterForm = RegisterForm(
    name: string,
    email: string,
    phone: string,
    password: string,
    confirmPassword: string)

  /** E-mail: required, then the e-mail pattern. */
  function EmailFieldIssues(email: string): seq<Issue> {
    Check(|email| >= 1, "email", "Email is required")
    + Check(IsEmail(email), "email", "Invalid email address")
  }

  function LoginIssues(f: LoginForm): seq<Issue> {
    EmailFieldIssues(f.email)
    + Check(|f.password| >= 1, "password", "Password is required")
    + Check(|f.password| >= 6, "password", "Password must be at least 6 characters")
  }

  /** The login form is accepted exactly when the e-mail matches the pattern and the password has six characters. */
  lemma LoginAcceptsExactly(f: LoginForm)
    ensures LoginIssues(f) == [] <==> IsEmail(f.email) && |f.password| >= 6
  {
    if IsEmail(f.email) {
      EmailNotShort(f.email);
    }
  }

  /** An empty login form reports all four failing checks, in schema order. */
  lemma EmptyLoginReportsEveryCheck()
    ensures LoginIssues(LoginForm("", "")) == [
      Issue(["email"], Custom("Email is required")),
      Issue(["email"], Custom("Invalid email address")),
      Issue(["password"], Custom("Password is required")),
      Issue(["password"], Custom("Password must be at least 6 characters"))]
  {
    if IsEmail("") {
      EmailNotShort("");
    }
  }

  predicate HasUpper(s: string) { exists i :: 0 <= i < |s| && IsUpper(s[i]) }
  predicate HasLower(s: string) { exists i :: 0 <= i < |s| && IsLower(s[i]) }
  predicate HasDigit(s: string) { exists i :: 0 <= i < |s| && IsDigit(s[i]) }

  /** The registration password rule: eight characters with an upper-case letter, a lower-case letter and a digit. */
  predicate StrongPassword(p: string) {
    |p| >= 8 && HasUpper(p) && HasLower(p) && HasDigit(p)
  }

  function RegisterFieldIssues(f: RegisterForm): seq<Issue> {
    Check(|f.name| >= 1, "name", "Name is required")
    + Check(|f.name| >= 2, "name", "Name must be at least 2 characters")
    + Check(|f.name| <= 100, "name", "Name must not exceed 100 characters")
    + EmailFieldIssues(f.email)
    + Check(|f.phone| >= 1, "phone", "Phone number is required")
    + Check(IsPhone(f.phone), "phone", "Invalid phone number format")
    + Check(|f.password| >= 1, "password", "Password is required")
    + Check(|f.password| >= 8, "password", "Password must be at least 8 characters")
    + Check(HasUpper(f.password), "password", "Password must contain at least one uppercase letter")
    + Check(HasLower(f.password), "password", "Password must contain at least one lowercase letter")
    + Check(HasDigit(f.password), "password", "Password must contain at least one number")
    + Check(|f.confirmPassword| >= 1, "confirmPassword", "Please confirm your password")
  }

  /** The field checks, then the rule that the two passwords agree. */
  function RegisterIssues(f: RegisterForm): seq<Issue> {
    RegisterFieldIssues(f)
    + Check(f.password == f.confirmPassword, "confirmPassword", "Passwords must match")
  }

  /**
   * The registration form is accepted exactly when the name has 2 to 100
   * characters, e-mail and phone match their patterns, the password is
   * strong and the confirmation repeats it.
   */
  lemma RegisterAcceptsExactly(f: RegisterForm)
    ensures RegisterIssues(f) == [] <==>
      && 2 <= |f.name| <= 100
      && IsEmail(f.email)
      && IsPhone(f.phone)
      && StrongPassword(f.password)
      && f.confirmPassword == f.password
  {
    if IsEmail(f.email) {
      EmailNotShort(f.email);
    }
    if IsPhone(f.phone) {
      PhoneNotEmpty();
      assert f.phone != "";
    }
  }

  /** Differing passwords always end the issue list with the mismatch, reported at `confirmPassword`. */
  lemma MismatchReportedAtConfirmation(f: RegisterForm)
    requires f.password != f.confirmPassword
    ensures var issues := RegisterIssues(f);
      |issues| >= 1 && issues[|issues| - 1] == Issue(["confirmPassword"], Custom("Passwords must match"))
  {
  }
}
