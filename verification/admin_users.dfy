/**
  The admin users table: the search box and the role and status dropdowns
  that narrow the list, and the badge styles and labels of each row.
*/
module AdminUsers {
  import opened Text
  import opened Lists
  import opened Badges

  datatype User = User(
    id: string,
    name: string,
    email: string,
    role: string,
    status: string,
    reportsCount: int,
    lastActive: string,
    location: string,
    imageUrl: string)

  /** The toolbar state: the search text and the two dropdown selections. */
  datatype UserFilter = UserFilter(searchQuery: string, selectedRole: string, selectedStatus: string)

  /** The dropdown value that switches its filter off. */
  const AllOption: string := "all"

  /** The toolbar as the page opens. */
  const InitialFilter: UserFilter := UserFilter("", AllOption, AllOption)

  /** The search box: a case-insensitive substring of the name, the email or
      the location. An empty query matches everything. */
  predicate MatchesSearch(u: User, query: string) {
    || query == ""
    || Contains(Lower(u.name), Lower(query))
    || Contains(Lower(u.email), Lower(query))
    || Contains(Lower(u.location), Lower(query))
  }

  /** The role dropdown: exact equality. */
  predicate MatchesRole(u: User, selected: string) {
    selected == AllOption || u.role == selected
  }

  /** The status dropdown: exact equality. */
  predicate MatchesStatus(u: User, selected: string) {
    selected == AllOption || u.status == selected
  }

  /** A row is shown when all three criteria accept it. */
  predicate Keep(u: User, f: UserFilter) {
    MatchesSearch(u, f.searchQuery) && MatchesRole(u, f.selectedRole) && MatchesStatus(u, f.selectedStatus)
  }

  /** The rows the table shows: the users every criterion accepts, in their
      original order, so "Showing n of m" always has n <= m. */
  function FilterUsers(users: seq<User>, f: UserFilter): (shown: seq<User>)
    ensures IsSubseq(shown, users)
    ensures |shown| <= |users|
    ensures forall i :: 0 <= i < |shown| ==> Keep(shown[i], f)
    ensures forall i :: 0 <= i < |users| ==> (users[i] in shown <==> Keep(users[i], f))
  {
    FilterBy(users, u => Keep(u, f))
  }

  /** Each accepted user is shown as often as it occurs in the list, and a
      rejected one not at all. */
  lemma FilterUsersCounts(users: seq<User>, f: UserFilter)
    ensures forall x :: multiset(FilterUsers(users, f))[x] == if Keep(x, f) then multiset(users)[x] else 0
  {
    FilterByCounts(users, u => Keep(u, f));
  }

  /** With an empty search and both dropdowns on "all", every user is shown,
      in the original order. */
  lemma InitialFilterShowsAll(users: seq<User>)
    ensures FilterUsers(users, InitialFilter) == users
  {
    FilterByKeepsAll(users, u => Keep(u, InitialFilter));
  }

  /** The criteria are conjunctive: searching first and then applying the two
      dropdowns shows exactly the rows the combined toolbar shows. */
  lemma FilterIsConjunction(users: seq<User>, f: UserFilter)
    ensures FilterUsers(users, f)
         == FilterUsers(FilterUsers(FilterUsers(users,
              UserFilter(f.searchQuery, AllOption, AllOption)),
              UserFilter("", f.selectedRole, AllOption)),
              UserFilter("", AllOption, f.selectedStatus))
  {
    var s := u => Keep(u, UserFilter(f.searchQuery, AllOption, AllOption));
    var r := u => Keep(u, UserFilter("", f.selectedRole, AllOption));
    var t := u => Keep(u, UserFilter("", AllOption, f.selectedStatus));
    var sr := u => MatchesSearch(u, f.searchQuery) && MatchesRole(u, f.selectedRole);
    FilterByTwice(users, s, r, sr);
    FilterByTwice(users, sr, t, u => Keep(u, f));
  }

  /** Choosing a specific role or status where the dropdown said "all" can
      only shrink the shown list. */
  lemma NarrowingShrinks(users: seq<User>, g: UserFilter, f: UserFilter)
    requires g.searchQuery == f.searchQuery
    requires f.selectedRole == AllOption || g.selectedRole == f.selectedRole
    requires f.selectedStatus == AllOption || g.selectedStatus == f.selectedStatus
    ensures IsSubseq(FilterUsers(users, g), FilterUsers(users, f))
    ensures |FilterUsers(users, g)| <= |FilterUsers(users, f)|
  {
    FilterByMonotone(users, u => Keep(u, g), u => Keep(u, f));
    SubseqBounds(FilterUsers(users, g), FilterUsers(users, f));
  }

  /** The search reads the name, the email and the location only: two users
      that agree on those match the same queries, whatever their role or status. */
  lemma SearchReadsOnlyNameEmailLocation(u1: User, u2: User, query: string)
    requires u1.name == u2.name && u1.email == u2.email && u1.location == u2.location
    ensures MatchesSearch(u1, query) == MatchesSearch(u2, query)
  {
  }

  /** Typing a role or status into the search box does not select by role or
      status: a query that occurs in none of the searched fields hides the row
      even when it spells the user's role. */
  lemma SearchIgnoresRole(u: User)
    requires u.role == "admin"
    requires !Contains(Lower(u.name), "admin")
    requires !Contains(Lower(u.email), "admin")
    requires !Contains(Lower(u.location), "admin")
    ensures !MatchesSearch(u, "admin")
    ensures MatchesRole(u, "admin")
  {
    assert Lower("admin") == "admin";
  }

  /** The search ignores the case of what is typed. */
  lemma SearchIgnoresQueryCase(u: User, query: string)
    ensures MatchesSearch(u, query) == MatchesSearch(u, Lower(query))
  {
    LowerIdempotent(query);
  }

  /** The role and status dropdowns are exact equality once switched on. */
  lemma DropdownsAreExact(u: User, selected: string)
    requires selected != AllOption
    ensures MatchesRole(u, selected) <==> u.role == selected
    ensures MatchesStatus(u, selected) <==> u.status == selected
  {
  }

  /** The role badge: "admin", "healthcare" and "researcher" get their own
      styles; "user" shares the default style with any unknown role. */
  function RoleTone(role: string): (t: Tone)
    ensures t == DefaultTone <==> role !in {"admin", "healthcare", "researcher"}
    ensures role == "admin" ==> t == DestructiveSoft
    ensures role == "healthcare" ==> t == Blue
    ensures role == "researcher" ==> t == Green
  {
    match role
    case "admin" => DestructiveSoft
    case "healthcare" => Blue
    case "researcher" => Green
    case _ => Secondary
  }

  /** The status badge: the four known statuses get their own, distinct
      styles and everything else the default. */
  function StatusTone(status: string): (t: Tone)
    ensures t == DefaultTone <==> status !in {"active", "inactive", "pending", "suspended"}
    ensures status == "active" ==> t == Green
    ensures status == "inactive" ==> t == Orange
    ensures status == "pending" ==> t == Blue
    ensures status == "suspended" ==> t == DestructiveSoft
  {
    match status
    case "active" => Green
    case "inactive" => Orange
    case "pending" => Blue
    case "suspended" => DestructiveSoft
    case _ => Secondary
  }

  /** The "user" role and an unknown role look the same. */
  lemma UserRoleHasDefaultStyle(unknown: string)
    requires unknown !in {"admin", "healthcare", "researcher"}
    ensures RoleTone("user") == RoleTone(unknown) == DefaultTone
  {
  }

  /** The role and status badges show the stored value with its first
      letter upper-cased. */
  lemma BadgeLabels()
    ensures Capitalize("admin") == "Admin"
    ensures Capitalize("pending") == "Pending"
  {
  }
}
