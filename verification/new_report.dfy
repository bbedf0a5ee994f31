/**
  The new sickness report form: its schema, its defaults, the symptom
  checklist, the travel-details toggle and the start-date window of the
  calendar. Dates are day numbers (days since 1970-01-01).
*/
module NewReport {
  import opened Forms
  import opened Text
  import opened Lists

  datatype ReportForm = ReportForm(
    illnessType: Option<string>,
    symptoms: seq<string>,
    otherSymptoms: Option<string>,
    severity: Option<string>,
    startDate: Option<int>,
    location: Option<string>,
    description: Option<string>,
    contactWithInfected: bool,
    travelHistory: bool,
    travelDetails: Option<string>,
    medicalAttention: bool,
    publicReport: bool)

  /** The fields that carry a rule, as validation issues name them. */
  datatype Field = IllnessType | Symptoms | Severity | StartDate | Location | Description

  const IllnessTypeMissing: Issue<Field> := Issue(IllnessType, "Please select a type of illness")
  const NoSymptoms: Issue<Field> := Issue(Symptoms, "Please select at least one symptom")
  const SeverityMissing: Issue<Field> := Issue(Severity, "Please select severity level")
  const StartDateMissing: Issue<Field> := Issue(StartDate, "Please select when symptoms started")
  const LocationMissing: Issue<Field> := Issue(Location, RequiredMessage)
  const LocationTooShort: Issue<Field> := Issue(Location, "Please enter a valid location")
  const DescriptionMissing: Issue<Field> := Issue(Description, RequiredMessage)
  const DescriptionTooShort: Issue<Field> := Issue(Description, "Description must be at least 10 characters")
  const DescriptionTooLong: Issue<Field> := Issue(Description, "Description must not exceed 500 characters")

  /** The values the form starts with: no symptoms, empty free-text extras,
      the yes/no questions unticked except the public-report consent; the
      type, severity, start date, location and description are unset. */
  const DefaultForm: ReportForm :=
    ReportForm(None, [], Some(""), None, None, None, None, false, false, Some(""), false, true)

  /** Where submitting or cancelling the form leads. */
  const DashboardRoute: string := "/app/dashboard"

  /** Every rule of the schema. The free-text extras and the yes/no questions
      carry no rule. */
  predicate Valid(f: ReportForm) {
    && f.illnessType.Some?
    && |f.symptoms| > 0
    && f.severity.Some?
    && f.startDate.Some?
    && f.location.Some? && Utf16Length(f.location.value) >= 3
    && f.description.Some? && 10 <= Utf16Length(f.description.value) <= 500
  }

  /** Two issues on the same field carry different messages. */
  lemma SameFieldIssuesDiffer()
    ensures LocationMissing != LocationTooShort
    ensures DescriptionMissing != DescriptionTooShort && DescriptionMissing != DescriptionTooLong
    ensures DescriptionTooShort != DescriptionTooLong
  {
  }

  /** The issues the schema reports, in field order. A present but empty
      type or severity is accepted: only a missing one is reported. */
  function Issues(f: ReportForm): (r: seq<Issue<Field>>)
    ensures r == [] <==> Valid(f)
    ensures IllnessTypeMissing in r <==> f.illnessType.None?
    ensures NoSymptoms in r <==> f.symptoms == []
    ensures SeverityMissing in r <==> f.severity.None?
    ensures StartDateMissing in r <==> f.startDate.None?
    ensures LocationMissing in r <==> f.location.None?
    ensures LocationTooShort in r <==> f.location.Some? && Utf16Length(f.location.value) < 3
    ensures DescriptionMissing in r <==> f.description.None?
    ensures DescriptionTooShort in r <==> f.description.Some? && Utf16Length(f.description.value) < 10
    ensures DescriptionTooLong in r <==> f.description.Some? && Utf16Length(f.description.value) > 500
    ensures forall x :: x in r ==> x in {IllnessTypeMissing, NoSymptoms, SeverityMissing, StartDateMissing, LocationMissing, LocationTooShort, DescriptionMissing, DescriptionTooShort, DescriptionTooLong}
  {
    SameFieldIssuesDiffer();
    var chosen := SelectionIssues(f);
    var written := TextIssues(f);
    chosen + written
  }

  /** The two free-text fields: the location, then the description. */
  function TextIssues(f: ReportForm): (r: seq<Issue<Field>>)
    ensures r == [] <==> LocationIssues(f.location) == [] && DescriptionIssues(f.description) == []
    ensures LocationMissing in r <==> f.location.None?
    ensures LocationTooShort in r <==> f.location.Some? && Utf16Length(f.location.value) < 3
    ensures DescriptionMissing in r <==> f.description.None?
    ensures DescriptionTooShort in r <==> f.description.Some? && Utf16Length(f.description.value) < 10
    ensures DescriptionTooLong in r <==> f.description.Some? && Utf16Length(f.description.value) > 500
    ensures forall x :: x in r ==> x in {LocationMissing, LocationTooShort, DescriptionMissing, DescriptionTooShort, DescriptionTooLong}
  {
    SameFieldIssuesDiffer();
    var location := LocationIssues(f.location);
    var description := DescriptionIssues(f.description);
    assert forall x :: x in location + description <==> x in location || x in description;
    location + description
  }

  /** The type, the symptoms, the severity and the start date: each must be
      chosen, and at least one symptom ticked. */
  function SelectionIssues(f: ReportForm): (r: seq<Issue<Field>>)
    ensures r == [] <==> f.illnessType.Some? && |f.symptoms| > 0 && f.severity.Some? && f.startDate.Some?
    ensures IllnessTypeMissing in r <==> f.illnessType.None?
    ensures NoSymptoms in r <==> f.symptoms == []
    ensures SeverityMissing in r <==> f.severity.None?
    ensures StartDateMissing in r <==> f.startDate.None?
    ensures forall x :: x in r ==> x in {IllnessTypeMissing, NoSymptoms, SeverityMissing, StartDateMissing}
  {
    Rule(f.illnessType.Some?, IllnessTypeMissing)
    + Rule(|f.symptoms| > 0, NoSymptoms)
    + Rule(f.severity.Some?, SeverityMissing)
    + Rule(f.startDate.Some?, StartDateMissing)
  }

  /** The location: required, at least 3 characters. */
  function LocationIssues(location: Option<string>): (r: seq<Issue<Field>>)
    ensures r == [] <==> location.Some? && Utf16Length(location.value) >= 3
    ensures LocationMissing in r <==> location.None?
    ensures LocationTooShort in r <==> location.Some? && Utf16Length(location.value) < 3
    ensures |r| <= 1 && forall x :: x in r ==> x in {LocationMissing, LocationTooShort}
  {
    match location
    case None => [LocationMissing]
    case Some(s) => Rule(Utf16Length(s) >= 3, LocationTooShort)
  }

  /** The description: required, 10 to 500 characters inclusive. */
  function DescriptionIssues(description: Option<string>): (r: seq<Issue<Field>>)
    ensures r == [] <==> description.Some? && 10 <= Utf16Length(description.value) <= 500
    ensures DescriptionMissing in r <==> description.None?
    ensures DescriptionTooShort in r <==> description.Some? && Utf16Length(description.value) < 10
    ensures DescriptionTooLong in r <==> description.Some? && Utf16Length(description.value) > 500
    ensures |r| <= 1 && forall x :: x in r ==> x in {DescriptionMissing, DescriptionTooShort, DescriptionTooLong}
  {
    match description
    case None => [DescriptionMissing]
    case Some(s) => Rule(Utf16Length(s) >= 10, DescriptionTooShort) + Rule(Utf16Length(s) <= 500, DescriptionTooLong)
  }

  /** Submitting the form: valid values lead back to the dashboard. */
  function Submit(f: ReportForm): (r: Submission<Field>)
    ensures r.Navigate? <==> Valid(f)
    ensures r.Navigate? ==> r.route == DashboardRoute
    ensures r.Rejected? ==> r.issues == Issues(f) && |r.issues| > 0
  {
    var issues := Issues(f);
    if issues == [] then Navigate(DashboardRoute) else Rejected(issues)
  }

  /** The form as it first appears cannot be submitted: among other things no
      symptom is ticked. */
  lemma DefaultFormRejected()
    ensures Submit(DefaultForm).Rejected?
    ensures NoSymptoms in Submit(DefaultForm).issues
    ensures IllnessTypeMissing in Submit(DefaultForm).issues
    ensures StartDateMissing in Submit(DefaultForm).issues
  {
  }

  /** Day number of 2023-01-01, the earliest day the calendar offers. */
  const FirstSelectableDay: int := 19358

  /** A start date is selectable in the calendar when it is neither after
      today nor before 2023-01-01. */
  function DateSelectable(day: int, today: int): (ok: bool)
    ensures ok <==> FirstSelectableDay <= day <= today
  {
    !(day > today || day < FirstSelectableDay)
  }

  /** The calendar window is enforced by the calendar only: the schema accepts
      any start date, so changing the date of a valid form keeps it valid. */
  lemma SchemaIgnoresDateWindow(f: ReportForm, day: int, today: int)
    requires Valid(f)
    requires !DateSelectable(day, today)
    ensures Valid(f.(startDate := Some(day)))
  {
  }

  /** Whether a symptom's checkbox is ticked. */
  predicate IsChecked(symptoms: seq<string>, symptom: string) {
    symptom in symptoms
  }

  /** Ticking a symptom appends it at the end and leaves the earlier entries
      as they were. */
  function CheckSymptom(symptoms: seq<string>, symptom: string): (r: seq<string>)
    ensures |r| == |symptoms| + 1
    ensures r[..|symptoms|] == symptoms
    ensures r[|symptoms|] == symptom
    ensures IsChecked(r, symptom)
  {
    symptoms + [symptom]
  }

  /** Unticking a symptom removes every occurrence of it and keeps every
      occurrence of the other entries, in their order. */
  function UncheckSymptom(symptoms: seq<string>, symptom: string): (r: seq<string>)
    ensures !IsChecked(r, symptom)
    ensures IsSubseq(r, symptoms)
    ensures multiset(r) == multiset(symptoms)[symptom := 0]
  {
    var keep := v => v != symptom;
    FilterByCounts(symptoms, keep);
    var r := FilterBy(symptoms, keep);
    assert forall x :: multiset(r)[x] == multiset(symptoms)[symptom := 0][x];
    r
  }

  /** The checkbox handler: `checked` is the box's new state. */
  function ToggleSymptom(symptoms: seq<string>, symptom: string, checked: bool): (r: seq<string>)
    ensures IsChecked(r, symptom) <==> checked
    ensures checked ==> r == CheckSymptom(symptoms, symptom)
    ensures !checked ==> r == UncheckSymptom(symptoms, symptom)
  {
    if checked then CheckSymptom(symptoms, symptom) else UncheckSymptom(symptoms, symptom)
  }

  /** Unticking a symptom that is not in the list changes nothing. */
  lemma {:induction false} UncheckAbsentIsIdentity(symptoms: seq<string>, symptom: string)
    requires !IsChecked(symptoms, symptom)
    ensures UncheckSymptom(symptoms, symptom) == symptoms
  {
    FilterByKeepsAll(symptoms, v => v != symptom);
  }

  /** Ticking and then unticking a symptom that was not ticked restores the
      original list. */
  lemma {:induction false} CheckThenUncheckRestores(symptoms: seq<string>, symptom: string)
    requires !IsChecked(symptoms, symptom)
    ensures UncheckSymptom(CheckSymptom(symptoms, symptom), symptom) == symptoms
  {
    var keep := v => v != symptom;
    FilterByConcat(symptoms, [symptom], keep);
    FilterByKeepsAll(symptoms, keep);
    assert FilterBy([symptom], keep) == [];
  }

  /** Unticking twice is the same as unticking once. */
  lemma {:induction false} UncheckIdempotent(symptoms: seq<string>, symptom: string)
    ensures UncheckSymptom(UncheckSymptom(symptoms, symptom), symptom) == UncheckSymptom(symptoms, symptom)
  {
    UncheckAbsentIsIdentity(UncheckSymptom(symptoms, symptom), symptom);
  }

  /** The page: the form and whether the travel-details box is shown. */
  datatype PageState = PageState(form: ReportForm, showTravelDetails: bool)

  const InitialPage: PageState := PageState(DefaultForm, false)

  /** The render-time sync: the travel-details box follows the travel
      question whenever the two disagree; the form itself is untouched. */
  function SyncTravelDetails(p: PageState): (r: PageState)
    ensures r.form == p.form
    ensures r.showTravelDetails == p.form.travelHistory
    ensures p.showTravelDetails == p.form.travelHistory ==> r == p
  {
    if p.form.travelHistory != p.showTravelDetails then p.(showTravelDetails := p.form.travelHistory) else p
  }

  /** The sync is idempotent, and the page starts in sync. */
  lemma SyncIsStable(p: PageState)
    ensures SyncTravelDetails(SyncTravelDetails(p)) == SyncTravelDetails(p)
    ensures SyncTravelDetails(InitialPage) == InitialPage
  {
  }
}
