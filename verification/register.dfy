/**
  The registration form: its schema with the password-match refinement, its
  defaults, and where a successful submit leads.
*/
module Register {
  import opened Forms
  import opened Text

  datatype RegisterForm = RegisterForm(
    name: string,
    email: string,
    password: string,
    confirmPassword: string,
    termsAndConditions: bool)

  /** The fields of the form, as validation issues name them. */
  datatype Field = Name | Email | Password | ConfirmPassword | TermsAndConditions

  const NameTooShort: Issue<Field> := Issue(Name, "Name must be at least 2 characters")
  const EmailInvalid: Issue<Field> := Issue(Email, "Please enter a valid email address")
  const PasswordTooShort: Issue<Field> := Issue(Password, "Password must be at least 6 characters")
  const TermsNotAccepted: Issue<Field> := Issue(TermsAndConditions, "You must accept the terms and conditions")
  /** The refinement's issue; it is attached to the confirmation field. */
  const PasswordsDiffer: Issue<Field> := Issue(ConfirmPassword, "Passwords do not match")

  /** The values the form starts with. */
  const DefaultForm: RegisterForm := RegisterForm("", "", "", "", false)

  /** Where a successful registration leads. */
  const LoginRoute: string := "/login"

  /** Every rule of the schema, the refinement included. */
  predicate Valid(f: RegisterForm, isEmail: string -> bool) {
    && Utf16Length(f.name) >= 2
    && isEmail(f.email)
    && Utf16Length(f.password) >= 6
    && f.termsAndConditions
    && f.password == f.confirmPassword
  }

  /** The issues the schema reports: the field rules in declaration order,
      then the password-match refinement. */
  function Issues(f: RegisterForm, isEmail: string -> bool): (r: seq<Issue<Field>>)
    ensures r == [] <==> Valid(f, isEmail)
    ensures NameTooShort in r <==> Utf16Length(f.name) < 2
    ensures EmailInvalid in r <==> !isEmail(f.email)
    ensures PasswordTooShort in r <==> Utf16Length(f.password) < 6
    ensures TermsNotAccepted in r <==> !f.termsAndConditions
    ensures PasswordsDiffer in r <==> f.password != f.confirmPassword
    ensures forall x :: x in r ==> x in {NameTooShort, EmailInvalid, PasswordTooShort, TermsNotAccepted, PasswordsDiffer}
  {
    Rule(Utf16Length(f.name) >= 2, NameTooShort)
    + Rule(isEmail(f.email), EmailInvalid)
    + Rule(Utf16Length(f.password) >= 6, PasswordTooShort)
    + Rule(f.termsAndConditions, TermsNotAccepted)
    + Rule(f.password == f.confirmPassword, PasswordsDiffer)
  }

  /** Submitting the form: valid values always lead to the login page, whatever
      account kind is selected. */
  function Submit(f: RegisterForm, role: AccountRole, isEmail: string -> bool): (r: Submission<Field>)
    ensures r.Navigate? <==> Valid(f, isEmail)
    ensures r.Navigate? ==> r.route == LoginRoute
    ensures r.Rejected? ==> r.issues == Issues(f, isEmail) && |r.issues| > 0
  {
    var issues := Issues(f, isEmail);
    if issues == [] then Navigate(LoginRoute) else Rejected(issues)
  }

  /** The form as it first appears cannot be submitted: the name and password
      are too short and the terms are not accepted, whatever the email check says. */
  lemma DefaultFormRejected(role: AccountRole, isEmail: string -> bool)
    ensures Submit(DefaultForm, role, isEmail).Rejected?
    ensures NameTooShort in Submit(DefaultForm, role, isEmail).issues
    ensures PasswordTooShort in Submit(DefaultForm, role, isEmail).issues
    ensures TermsNotAccepted in Submit(DefaultForm, role, isEmail).issues
    ensures PasswordsDiffer !in Submit(DefaultForm, role, isEmail).issues
  {
  }

  /** The selected account kind never changes where a submit leads. */
  lemma SubmitIgnoresRole(f: RegisterForm, isEmail: string -> bool)
    ensures Submit(f, UserRole, isEmail) == Submit(f, AdminRole, isEmail)
  {
  }
}
