/**
  The user settings page: the password-change form with its conditional
  password-match refinement and its reset after a successful change, and the
  privacy preferences with their defaults.
*/
module UserSettings {
  import opened Forms
  import opened Text

  // --------------------------------------------------------------- password

  datatype SecurityForm = SecurityForm(
    currentPassword: string,
    newPassword: Option<string>,
    confirmPassword: Option<string>)

  datatype Field = CurrentPassword | NewPassword | ConfirmPassword

  const CurrentPasswordMissing: Issue<Field> := Issue(CurrentPassword, "Current password is required")
  const NewPasswordTooShort: Issue<Field> := Issue(NewPassword, "Password must be at least 8 characters")
  /** The refinement's issue; it is attached to the confirmation field. */
  const PasswordsDiffer: Issue<Field> := Issue(ConfirmPassword, "Passwords do not match")

  /** The values the form starts with, and the values it is reset to. */
  const EmptyForm: SecurityForm := SecurityForm("", Some(""), Some(""))

  /** A new password is set when it is present and non-empty. */
  predicate ChangesPassword(f: SecurityForm) {
    f.newPassword.Some? && f.newPassword.value != ""
  }

  /** The new password may be absent or empty; otherwise it needs 8 characters. */
  predicate NewPasswordAcceptable(p: Option<string>) {
    p.None? || p.value == "" || Utf16Length(p.value) >= 8
  }

  /** Every rule of the schema: a current password, an acceptable new one,
      and, when a new one is set, a confirmation equal to it. */
  predicate SecurityValid(f: SecurityForm) {
    && Utf16Length(f.currentPassword) >= 1
    && NewPasswordAcceptable(f.newPassword)
    && (ChangesPassword(f) ==> f.confirmPassword == f.newPassword)
  }

  /** The issues the schema reports: field rules first, then the refinement. */
  function SecurityIssues(f: SecurityForm): (r: seq<Issue<Field>>)
    ensures r == [] <==> SecurityValid(f)
    ensures CurrentPasswordMissing in r <==> f.currentPassword == ""
    ensures NewPasswordTooShort in r <==> !NewPasswordAcceptable(f.newPassword)
    ensures PasswordsDiffer in r <==> ChangesPassword(f) && f.confirmPassword != f.newPassword
    ensures forall x :: x in r ==> x in {CurrentPasswordMissing, NewPasswordTooShort, PasswordsDiffer}
  {
    Rule(Utf16Length(f.currentPassword) >= 1, CurrentPasswordMissing)
    + Rule(NewPasswordAcceptable(f.newPassword), NewPasswordTooShort)
    + Rule(!ChangesPassword(f) || f.confirmPassword == f.newPassword, PasswordsDiffer)
  }

  /** Without a new password the confirmation is not looked at: any value of
      it yields the same issues. */
  lemma ConfirmationIgnoredWithoutNewPassword(f: SecurityForm, confirm: Option<string>)
    requires !ChangesPassword(f)
    ensures SecurityIssues(f.(confirmPassword := confirm)) == SecurityIssues(f)
  {
  }

  /** A set new password with a different confirmation, even an absent one, is
      rejected on the confirmation field. */
  lemma MismatchRejectedOnConfirmation(f: SecurityForm)
    requires ChangesPassword(f) && f.confirmPassword != f.newPassword
    ensures !SecurityValid(f)
    ensures exists x :: x in SecurityIssues(f) && x.path == ConfirmPassword
  {
  }

  /** The form after a submit, and the issues it shows. */
  datatype SecuritySubmit = SecuritySubmit(form: SecurityForm, issues: seq<Issue<Field>>)

  /** Submitting: valid values are accepted and all three fields are reset to
      empty; invalid ones stay as typed and the issues are shown. */
  function SubmitSecurity(f: SecurityForm): (r: SecuritySubmit)
    ensures SecurityValid(f) ==> r.form == EmptyForm && r.issues == []
    ensures !SecurityValid(f) ==> r.form == f && r.issues == SecurityIssues(f) && |r.issues| > 0
  {
    var issues := SecurityIssues(f);
    if issues == [] then SecuritySubmit(EmptyForm, []) else SecuritySubmit(f, issues)
  }

  /** The reset form is the form as it first appears, and it cannot be
      submitted again as it is: the current password is gone. */
  lemma ResetFormRejected(f: SecurityForm)
    requires SecurityValid(f)
    ensures SubmitSecurity(f).form.currentPassword == ""
    ensures SubmitSecurity(f).form.newPassword == Some("")
    ensures SubmitSecurity(f).form.confirmPassword == Some("")
    ensures !SecurityValid(SubmitSecurity(f).form)
  {
  }

  // ---------------------------------------------------------------- privacy

  /** The privacy form as typed: a missing value takes the schema default. */
  datatype PrivacyForm = PrivacyForm(
    dataSharing: Option<string>,
    locationPrecision: Option<string>,
    profileVisibility: Option<string>)

  datatype PrivacySettings = PrivacySettings(
    dataSharing: string,
    locationPrecision: string,
    profileVisibility: string)

  /** The values the form starts with. */
  const DefaultPrivacyForm: PrivacyForm := PrivacyForm(Some("anonymized"), Some("city"), Some("registered"))

  function OrDefault(v: Option<string>, default: string): string {
    match v
    case Some(s) => s
    case None => default
  }

  /** The schema's parse: a present value is kept, a missing one becomes
      "anonymized", "city" or "registered" respectively. */
  function ParsePrivacy(f: PrivacyForm): (r: PrivacySettings)
    ensures f.dataSharing.Some? ==> r.dataSharing == f.dataSharing.value
    ensures f.locationPrecision.Some? ==> r.locationPrecision == f.locationPrecision.value
    ensures f.profileVisibility.Some? ==> r.profileVisibility == f.profileVisibility.value
    ensures f.dataSharing.None? ==> r.dataSharing == "anonymized"
    ensures f.locationPrecision.None? ==> r.locationPrecision == "city"
    ensures f.profileVisibility.None? ==> r.profileVisibility == "registered"
  {
    PrivacySettings(
      OrDefault(f.dataSharing, "anonymized"),
      OrDefault(f.locationPrecision, "city"),
      OrDefault(f.profileVisibility, "registered"))
  }

  /** The form's starting values and the schema's defaults agree: an untouched
      form and an empty one parse to the same settings. */
  lemma PrivacyDefaultsAgree()
    ensures ParsePrivacy(DefaultPrivacyForm) == ParsePrivacy(PrivacyForm(None, None, None))
    ensures ParsePrivacy(DefaultPrivacyForm) == PrivacySettings("anonymized", "city", "registered")
  {
  }
}
