/**
  The profile page: the profile form's schema and defaults, the edit-mode
  switch, and the fallbacks shown for empty fields.
*/
module Profile {
  import opened Forms
  import opened Text

  datatype ProfileForm = ProfileForm(
    name: string,
    email: string,
    phone: Option<string>,
    bio: Option<string>,
    location: Option<string>,
    medicalBackground: Option<string>)

  datatype Field = Name | Email | Bio

  const NameTooShort: Issue<Field> := Issue(Name, "Name must be at least 2 characters.")
  const EmailInvalid: Issue<Field> := Issue(Email, "Please enter a valid email address.")
  const BioTooLong: Issue<Field> := Issue(Bio, "String must contain at most 160 character(s)")

  const DefaultForm: ProfileForm := ProfileForm(
    "John Doe",
    "john.doe@example.com",
    Some("+1 (555) 123-4567"),
    Some("Healthcare worker focused on community wellness and disease prevention."),
    Some("Metropolitan Area"),
    Some("Yes"))

  /** The bio is optional; when present it holds at most 160 characters. */
  predicate BioAcceptable(bio: Option<string>) {
    bio.None? || Utf16Length(bio.value) <= 160
  }

  predicate Valid(f: ProfileForm, isEmail: string -> bool) {
    Utf16Length(f.name) >= 2 && isEmail(f.email) && BioAcceptable(f.bio)
  }

  /** The issues the schema reports, in field order; phone, location and
      medical background carry no rule. */
  function Issues(f: ProfileForm, isEmail: string -> bool): (r: seq<Issue<Field>>)
    ensures r == [] <==> Valid(f, isEmail)
    ensures NameTooShort in r <==> Utf16Length(f.name) < 2
    ensures EmailInvalid in r <==> !isEmail(f.email)
    ensures BioTooLong in r <==> f.bio.Some? && Utf16Length(f.bio.value) > 160
    ensures forall x :: x in r ==> x in {NameTooShort, EmailInvalid, BioTooLong}
  {
    Rule(Utf16Length(f.name) >= 2, NameTooShort)
    + Rule(isEmail(f.email), EmailInvalid)
    + Rule(BioAcceptable(f.bio), BioTooLong)
  }

  /** The default name and bio lie within their bounds; with an email check
      that accepts the default address the whole default form is valid. */
  lemma DefaultFormWithinBounds(isEmail: string -> bool)
    ensures NameTooShort !in Issues(DefaultForm, isEmail)
    ensures BioTooLong !in Issues(DefaultForm, isEmail)
    ensures isEmail(DefaultForm.email) ==> Valid(DefaultForm, isEmail)
  {
  }

  /** The page: the form and whether it is in edit mode. */
  datatype ProfilePage = ProfilePage(form: ProfileForm, isEditing: bool)

  /** The Edit / Cancel button flips edit mode and leaves the form alone. */
  function ToggleEditing(p: ProfilePage): (r: ProfilePage)
    ensures r.isEditing == !p.isEditing
    ensures r.form == p.form
  {
    p.(isEditing := !p.isEditing)
  }

  /** Pressing the button twice returns to the original page. */
  lemma ToggleTwiceRestores(p: ProfilePage)
    ensures ToggleEditing(ToggleEditing(p)) == p
  {
  }

  /** The page after a submit, and the issues it shows. */
  datatype ProfileSubmit = ProfileSubmit(page: ProfilePage, issues: seq<Issue<Field>>)

  /** Submitting: valid values leave edit mode, whatever mode the page was
      in; invalid ones change nothing and show the issues. */
  function Submit(p: ProfilePage, isEmail: string -> bool): (r: ProfileSubmit)
    ensures Valid(p.form, isEmail) ==> !r.page.isEditing && r.page.form == p.form && r.issues == []
    ensures !Valid(p.form, isEmail) ==> r.page == p && r.issues == Issues(p.form, isEmail) && |r.issues| > 0
  {
    var issues := Issues(p.form, isEmail);
    if issues == [] then ProfileSubmit(p.(isEditing := false), []) else ProfileSubmit(p, issues)
  }

  /** What a field shows: its value, or `fallback` when it is missing or empty. */
  function ShownOr(v: Option<string>, fallback: string): (shown: string)
    ensures (v == None || v == Some("")) ==> shown == fallback
    ensures v.Some? && v.value != "" ==> shown == v.value
  {
    if v.None? || v.value == "" then fallback else v.value
  }

  /** The location badge of the overview card. */
  function OverviewLocation(f: ProfileForm): string {
    ShownOr(f.location, "Not specified")
  }

  /** The location line of the contact card. */
  function ContactLocation(f: ProfileForm): string {
    ShownOr(f.location, "Not provided")
  }

  /** The phone line of the contact card. */
  function ContactPhone(f: ProfileForm): string {
    ShownOr(f.phone, "Not provided")
  }

  /** An empty location reads "Not specified" in the overview but "Not
      provided" in the contact card; an empty phone reads "Not provided"; a
      filled-in field is shown as typed. No line is ever blank. */
  lemma EmptyFieldFallbacks(f: ProfileForm)
    ensures f.location in {None, Some("")} ==> OverviewLocation(f) == "Not specified" && ContactLocation(f) == "Not provided"
    ensures f.phone in {None, Some("")} ==> ContactPhone(f) == "Not provided"
    ensures f.location.Some? && f.location.value != "" ==> OverviewLocation(f) == ContactLocation(f) == f.location.value
    ensures OverviewLocation(f) != "" && ContactLocation(f) != "" && ContactPhone(f) != ""
  {
  }
}
