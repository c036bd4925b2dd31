/** The login and registration form rules. Every field check runs and
    reports its own issue; the registration's password-match refinement
    reports on the confirmation field. Email syntax is decided by the
    validation library; it is the parameter `isEmail` here. */
module AuthSchema {
  import opened Outcomes

  const MinPasswordLength: nat := 6
  const LoginEmailMessage := "Format email tidak valid"
  const PasswordMinMessage := "Password minimal 6 karakter"
  const PasswordMismatchMessage := "Password tidak sama"

  datatype Field = Email | Password | ConfirmPassword

  /** One reported problem: the field it is attached to and its message;
      `None` stands for the validation library's own default message. */
  datatype Issue = Issue(field: Field, message: Option<string>)

  datatype LoginForm = LoginForm(email: string, password: string)

  datatype RegisterForm = RegisterForm(email: string, password: string, confirmPassword: string)

  predicate LoginValid(f: LoginForm, isEmail: string -> bool)
  {
    isEmail(f.email) && |f.password| >= MinPasswordLength
  }

  predicate RegisterValid(f: RegisterForm, isEmail: string -> bool)
  {
    && isEmail(f.email)
    && |f.password| >= MinPasswordLength
    && |f.confirmPassword| >= MinPasswordLength
    && f.password == f.confirmPassword
  }

  /** `string().min(6)` on one field. */
  function PasswordIssues(field: Field, s: string): (r: seq<Issue>)
    ensures r == [] <==> |s| >= MinPasswordLength
    ensures forall i :: 0 <= i < |r| ==> r[i].field == field
  {
    if |s| < MinPasswordLength then [Issue(field, Some(PasswordMinMessage))] else []
  }

  /** `loginSchema`: the issues of a login form. */
  function LoginIssues(f: LoginForm, isEmail: string -> bool): (r: seq<Issue>)
    ensures r == [] <==> LoginValid(f, isEmail)
  {
    (if !isEmail(f.email) then [Issue(Email, Some(LoginEmailMessage))] else [])
    + PasswordIssues(Password, f.password)
  }

  /** `registerSchema`: the field issues, then the refinement that the two
      passwords are equal, reported on `confirmPassword`. */
  function RegisterIssues(f: RegisterForm, isEmail: string -> bool): (r: seq<Issue>)
    ensures r == [] <==> RegisterValid(f, isEmail)
  {
    (if !isEmail(f.email) then [Issue(Email, None)] else [])
    + PasswordIssues(Password, f.password)
    + PasswordIssues(ConfirmPassword, f.confirmPassword)
    + (if f.password != f.confirmPassword then [Issue(ConfirmPassword, Some(PasswordMismatchMessage))] else [])
  }

  /** An accepted registration has matching passwords. */
  lemma AcceptedRegistrationMatches(f: RegisterForm, isEmail: string -> bool)
    requires RegisterIssues(f, isEmail) == []
    ensures f.password == f.confirmPassword
  {
  }

  /** The mismatch is reported exactly when the passwords differ, and on the
      confirmation field; the password field is only ever blamed for being
      too short. */
  lemma MismatchBlamesConfirmation(f: RegisterForm, isEmail: string -> bool)
    ensures var issues := RegisterIssues(f, isEmail);
      && (Issue(ConfirmPassword, Some(PasswordMismatchMessage)) in issues <==> f.password != f.confirmPassword)
      && (forall i :: 0 <= i < |issues| && issues[i].field == Password ==>
            issues[i].message == Some(PasswordMinMessage) && |f.password| < MinPasswordLength)
  {
  }

  /** With a valid email and long enough passwords that differ, the only
      issue is the mismatch on the confirmation field. */
  lemma OnlyMismatchReported(f: RegisterForm, isEmail: string -> bool)
    requires isEmail(f.email)
    requires |f.password| >= MinPasswordLength && |f.confirmPassword| >= MinPasswordLength
    requires f.password != f.confirmPassword
    ensures RegisterIssues(f, isEmail) == [Issue(ConfirmPassword, Some(PasswordMismatchMessage))]
  {
  }
}
