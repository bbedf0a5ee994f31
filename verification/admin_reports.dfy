/**
  The admin reports table: the search box and the type, status and severity
  dropdowns that narrow the list, the badge styles and labels of each row,
  and the actions the report detail dialog offers.
*/
module AdminReports {
  import opened Text
  import opened Lists
  import opened Badges

  datatype Reporter = Reporter(name: string, email: string, imageUrl: string)

  datatype Report = Report(
    id: string,
    reportType: string,
    date: string,
    reportedBy: Reporter,
    location: string,
    severity: string,
    status: string,
    symptoms: seq<string>)

  /** The toolbar state: the search text and the three dropdown selections. */
  datatype ReportFilter = ReportFilter(
    searchQuery: string,
    selectedType: string,
    selectedStatus: string,
    selectedSeverity: string)

  /** The dropdown value that switches its filter off. */
  const AllOption: string := "all"

  /** The toolbar as the page opens. */
  const InitialFilter: ReportFilter := ReportFilter("", AllOption, AllOption, AllOption)

  /** The search box: a case-insensitive substring of the type, the reporter's
      name or the location. An empty query matches everything. */
  predicate MatchesSearch(r: Report, query: string) {
    || query == ""
    || Contains(Lower(r.reportType), Lower(query))
    || Contains(Lower(r.reportedBy.name), Lower(query))
    || Contains(Lower(r.location), Lower(query))
  }

  /** The type dropdown: a case-insensitive substring test on the type, so a
      short key such as "respiratory" selects every respiratory type. */
  predicate MatchesType(r: Report, selected: string) {
    selected == AllOption || Contains(Lower(r.reportType), Lower(selected))
  }

  /** The status dropdown: exact equality. */
  predicate MatchesStatus(r: Report, selected: string) {
    selected == AllOption || r.status == selected
  }

  /** The severity dropdown: exact equality. */
  predicate MatchesSeverity(r: Report, selected: string) {
    selected == AllOption || r.severity == selected
  }

  /** A row is shown when all four criteria accept it. */
  predicate Keep(r: Report, f: ReportFilter) {
    && MatchesSearch(r, f.searchQuery)
    && MatchesType(r, f.selectedType)
    && MatchesStatus(r, f.selectedStatus)
    && MatchesSeverity(r, f.selectedSeverity)
  }

  /** The rows the table shows: the reports every criterion accepts, in their
      original order, so "Showing n of m" always has n <= m. */
  function FilterReports(reports: seq<Report>, f: ReportFilter): (shown: seq<Report>)
    ensures IsSubseq(shown, reports)
    ensures |shown| <= |reports|
    ensures forall i :: 0 <= i < |shown| ==> Keep(shown[i], f)
    ensures forall i :: 0 <= i < |reports| ==> (reports[i] in shown <==> Keep(reports[i], f))
  {
    FilterBy(reports, r => Keep(r, f))
  }

  /** Each accepted report is shown as often as it occurs in the list, and a
      rejected one not at all. */
  lemma FilterReportsCounts(reports: seq<Report>, f: ReportFilter)
    ensures forall x :: multiset(FilterReports(reports, f))[x] == if Keep(x, f) then multiset(reports)[x] else 0
  {
    FilterByCounts(reports, r => Keep(r, f));
  }

  /** With an empty search and every dropdown on "all", every report is shown,
      in its original order. */
  lemma InitialFilterShowsAll(reports: seq<Report>)
    ensures FilterReports(reports, InitialFilter) == reports
  {
    FilterByKeepsAll(reports, r => Keep(r, InitialFilter));
  }

  /** The toolbar with only one criterion left on. */
  function SearchOnly(f: ReportFilter): ReportFilter {
    ReportFilter(f.searchQuery, AllOption, AllOption, AllOption)
  }

  function TypeOnly(f: ReportFilter): ReportFilter {
    ReportFilter("", f.selectedType, AllOption, AllOption)
  }

  function StatusOnly(f: ReportFilter): ReportFilter {
    ReportFilter("", AllOption, f.selectedStatus, AllOption)
  }

  function SeverityOnly(f: ReportFilter): ReportFilter {
    ReportFilter("", AllOption, AllOption, f.selectedSeverity)
  }

  /** The criteria are independent and conjunctive: applying the search, then
      the type, then the status, then the severity filter one at a time shows
      exactly the rows the combined toolbar shows. */
  lemma FilterIsConjunction(reports: seq<Report>, f: ReportFilter)
    ensures FilterReports(reports, f)
         == FilterReports(FilterReports(FilterReports(FilterReports(reports,
              SearchOnly(f)), TypeOnly(f)), StatusOnly(f)), SeverityOnly(f))
  {
    var s := r => Keep(r, SearchOnly(f));
    var t := r => Keep(r, TypeOnly(f));
    var u := r => Keep(r, StatusOnly(f));
    var v := r => Keep(r, SeverityOnly(f));
    var st := r => MatchesSearch(r, f.searchQuery) && MatchesType(r, f.selectedType);
    var stu := r => st(r) && MatchesStatus(r, f.selectedStatus);
    FilterByTwice(reports, s, t, st);
    FilterByTwice(reports, st, u, stu);
    FilterByTwice(reports, stu, v, r => Keep(r, f));
  }

  /** `g` narrows `f`: the same search, and each dropdown of `f` either off or
      set to the same value in `g`. */
  predicate Narrows(g: ReportFilter, f: ReportFilter) {
    && g.searchQuery == f.searchQuery
    && (f.selectedType == AllOption || g.selectedType == f.selectedType)
    && (f.selectedStatus == AllOption || g.selectedStatus == f.selectedStatus)
    && (f.selectedSeverity == AllOption || g.selectedSeverity == f.selectedSeverity)
  }

  /** Moving dropdowns from "all" to specific values can only shrink the shown
      list, and what remains keeps its relative order. */
  lemma NarrowingShrinks(reports: seq<Report>, g: ReportFilter, f: ReportFilter)
    requires Narrows(g, f)
    ensures IsSubseq(FilterReports(reports, g), FilterReports(reports, f))
    ensures |FilterReports(reports, g)| <= |FilterReports(reports, f)|
  {
    FilterByMonotone(reports, r => Keep(r, g), r => Keep(r, f));
    SubseqBounds(FilterReports(reports, g), FilterReports(reports, f));
  }

  /** The search reads the type, the reporter's name and the location only:
      two reports that agree on those match the same queries, whatever their
      reporter email, symptoms, status or severity. */
  lemma SearchReadsOnlyTypeNameLocation(r1: Report, r2: Report, query: string)
    requires r1.reportType == r2.reportType
    requires r1.reportedBy.name == r2.reportedBy.name
    requires r1.location == r2.location
    ensures MatchesSearch(r1, query) == MatchesSearch(r2, query)
  {
  }

  /** A report matches a query exactly when it matches the lower-cased query:
      the search ignores the case of what is typed. So does the type filter,
      except that only the exact value "all" switches it off. */
  lemma SearchIgnoresQueryCase(r: Report, query: string)
    ensures MatchesSearch(r, query) == MatchesSearch(r, Lower(query))
    ensures Lower(query) != AllOption ==> MatchesType(r, query) == MatchesType(r, Lower(query))
  {
    LowerIdempotent(query);
  }

  /** The "Respiratory" menu entry keeps every "Respiratory Infection" row:
      the type filter is a case-insensitive substring test. */
  lemma RespiratoryKeepsRespiratoryInfection(r: Report)
    requires r.reportType == "Respiratory Infection"
    ensures MatchesType(r, "respiratory")
  {
  }

  /** The status filter is exact and case-sensitive, unlike the type filter:
      "Active" does not select a row whose status is "active". */
  lemma StatusFilterIsExact(r: Report, selected: string)
    requires selected != AllOption
    ensures MatchesStatus(r, selected) <==> r.status == selected
    ensures MatchesSeverity(r, selected) <==> r.severity == selected
    ensures r.status == "active" ==> !MatchesStatus(r, "Active")
  {
  }

  /** The severity badge: the four known severities get their own styles and
      anything else the default style. */
  function SeverityTone(severity: string): (t: Tone)
    ensures t == DefaultTone <==> severity !in {"mild", "moderate", "severe", "critical"}
    ensures severity == "mild" ==> t == Green
    ensures severity == "moderate" ==> t == Orange
    ensures severity == "severe" ==> t == DestructiveSoft
    ensures severity == "critical" ==> t == Destructive
  {
    match severity
    case "mild" => Green
    case "moderate" => Orange
    case "severe" => DestructiveSoft
    case "critical" => Destructive
    case _ => Secondary
  }

  /** The status badge: "active", "verified" and "flagged" get their own
      styles; "resolved" gets the same style as an unknown status. */
  function StatusTone(status: string): (t: Tone)
    ensures t == DefaultTone <==> status !in {"active", "verified", "flagged"}
    ensures status == "active" ==> t == Blue
    ensures status == "verified" ==> t == Green
    ensures status == "flagged" ==> t == Orange
  {
    match status
    case "active" => Blue
    case "verified" => Green
    case "flagged" => Orange
    case "resolved" => Secondary
    case _ => Secondary
  }

  /** The buttons of the report detail dialog. */
  datatype DetailAction = Delete | Verify | Flag | Resolve | Close

  /** The detail dialog always offers Delete first and Close last; it offers
      Verify, Flag and Resolve only when the report is not already in that
      state. Each button appears once. */
  function DetailActions(status: string): (actions: seq<DetailAction>)
    ensures Delete in actions && Close in actions
    ensures Verify in actions <==> status != "verified"
    ensures Flag in actions <==> status != "flagged"
    ensures Resolve in actions <==> status != "resolved"
    ensures actions[0] == Delete && actions[|actions| - 1] == Close
    ensures forall i, j :: 0 <= i < j < |actions| ==> actions[i] != actions[j]
  {
    var middle := StatusActions(status != "verified", status != "flagged", status != "resolved");
    var actions := [Delete] + middle + [Close];
    actions
  }

  /** The buttons between Delete and Close: Verify, Flag and Resolve, each
      at most once and each exactly when its flag is set. */
  function StatusActions(verify: bool, flag: bool, resolve: bool): (actions: seq<DetailAction>)
    ensures Verify in actions <==> verify
    ensures Flag in actions <==> flag
    ensures Resolve in actions <==> resolve
    ensures Delete !in actions && Close !in actions
    ensures forall i, j :: 0 <= i < j < |actions| ==> actions[i] != actions[j]
  {
    (if verify then [Verify] else [])
    + (if flag then [Flag] else [])
    + (if resolve then [Resolve] else [])
  }
}
