/**
  The login form: its schema, its defaults, the account-kind tabs and the
  redirect chosen by the selected kind.
*/
module Login {
  import opened Forms
  import opened Text

  datatype LoginForm = LoginForm(email: string, password: string, rememberMe: bool)

  /** The fields of the form, as validation issues name them. */
  datatype Field = Email | Password

  const EmailInvalid: Issue<Field> := Issue(Email, "Please enter a valid email address")
  const PasswordTooShort: Issue<Field> := Issue(Password, "Password must be at least 6 characters")

  /** The values the form starts with. */
  const DefaultForm: LoginForm := LoginForm("", "", false)

  /** The account kind selected when the page opens. */
  const InitialRole: AccountRole := UserRole

  /** The tab the page opens on. */
  const DefaultTab: string := "user"

  const AdminDashboard: string := "/admin/dashboard"
  const UserDashboard: string := "/app/dashboard"

  predicate Valid(f: LoginForm, isEmail: string -> bool) {
    isEmail(f.email) && Utf16Length(f.password) >= 6
  }

  /** The issues the schema reports, in field order; `rememberMe` has no rule. */
  function Issues(f: LoginForm, isEmail: string -> bool): (r: seq<Issue<Field>>)
    ensures r == [] <==> Valid(f, isEmail)
    ensures EmailInvalid in r <==> !isEmail(f.email)
    ensures PasswordTooShort in r <==> Utf16Length(f.password) < 6
    ensures forall x :: x in r ==> x in {EmailInvalid, PasswordTooShort}
  {
    Rule(isEmail(f.email), EmailInvalid) + Rule(Utf16Length(f.password) >= 6, PasswordTooShort)
  }

  /** The dashboard a signed-in account kind is sent to. */
  function DashboardFor(role: AccountRole): (route: string)
    ensures route == AdminDashboard <==> role == AdminRole
    ensures route == UserDashboard <==> role == UserRole
  {
    assert AdminDashboard[2] != UserDashboard[2];
    match role
    case AdminRole => AdminDashboard
    case UserRole => UserDashboard
  }

  /** The value of the tab that stands for each account kind. */
  function TabValue(role: AccountRole): (tab: string)
    ensures tab == "admin" <==> role == AdminRole
    ensures tab == "user" <==> role == UserRole
  {
    match role
    case AdminRole => "admin"
    case UserRole => "user"
  }

  /** Picking a tab selects the account kind it names; the page has exactly
      the two tabs "user" and "admin". */
  function SelectTab(tab: string): (role: AccountRole)
    requires tab == "user" || tab == "admin"
    ensures role == AdminRole <==> tab == "admin"
    ensures role == UserRole <==> tab == "user"
  {
    if tab == "admin" then AdminRole else UserRole
  }

  /** Tab values and account kinds correspond one to one, and the page opens
      on the tab of the initial account kind. */
  lemma TabRoundTrip(role: AccountRole, tab: string)
    requires tab == "user" || tab == "admin"
    ensures SelectTab(TabValue(role)) == role
    ensures TabValue(SelectTab(tab)) == tab
    ensures SelectTab(DefaultTab) == InitialRole
  {
  }

  /** Submitting the form: valid values lead to the dashboard of the selected
      account kind, invalid ones are shown their issues. */
  function Submit(f: LoginForm, role: AccountRole, isEmail: string -> bool): (r: Submission<Field>)
    ensures r.Navigate? <==> Valid(f, isEmail)
    ensures r.Navigate? ==> (r.route == AdminDashboard <==> role == AdminRole)
    ensures r.Navigate? ==> (r.route == UserDashboard <==> role == UserRole)
    ensures r.Rejected? ==> r.issues == Issues(f, isEmail) && |r.issues| > 0
  {
    var issues := Issues(f, isEmail);
    if issues == [] then Navigate(DashboardFor(role)) else Rejected(issues)
  }

  /** The form as it first appears fails on its empty password, and "remember
      me" starts off. */
  lemma DefaultFormRejected(isEmail: string -> bool)
    ensures !DefaultForm.rememberMe
    ensures Submit(DefaultForm, InitialRole, isEmail).Rejected?
    ensures PasswordTooShort in Submit(DefaultForm, InitialRole, isEmail).issues
  {
  }
}
