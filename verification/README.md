# SRRS front-end logic in Dafny

The Sickness Recording & Reporting System (SRRS) front-end is a set of pages
over mock data. This project models the pure logic inside those pages:

- **Admin tables.** The reports table and the users table each have a search
  box and dropdown filters. Search is a case-insensitive substring test over
  chosen fields. A dropdown set to `"all"` is switched off. Rows also get
  badge styles and capitalised labels. The report detail dialog offers
  actions that depend on the report's status.
- **Form schemas.** Each form is a total validator. It returns the list of
  validation issues, each attached to a field. The forms are the new report,
  the admin system, notification and security settings, the user password
  change and privacy preferences, registration, login and the profile.
- **Small state transitions.** These are the symptom checklist, the
  travel-details toggle, the maintenance-mode switch and dialog, the profile
  edit mode, the password-form reset and the redirect after login or
  registration.

Modules:

| module | file | models |
|---|---|---|
| `Text` | text.dfy | ASCII case mapping, `includes`, the badge label, UTF-16 length |
| `Lists` | lists.dfy | `Array.prototype.filter` and order-preserving sub-sequences |
| `Forms` | forms.dfy | optional values, issues, rules, submit outcomes |
| `Badges` | badges.dfy | badge tones and their class strings |
| `AdminReports` | admin_reports.dfy | src/pages/admin/Reports.tsx |
| `AdminUsers` | admin_users.dfy | src/pages/admin/Users.tsx |
| `NewReport` | new_report.dfy | src/pages/user/NewReport.tsx |
| `AdminSettings` | admin_settings.dfy | src/pages/admin/Settings.tsx |
| `UserSettings` | user_settings.dfy | src/pages/user/Settings.tsx |
| `Register` | register.dfy | src/pages/auth/Register.tsx |
| `Login` | login.dfy | src/pages/auth/Login.tsx |
| `Profile` | profile.dfy | src/pages/user/Profile.tsx |

Conventions:

- A form field that is not in the form's default values starts as
  `undefined`. It is modelled as `Option<string>`. A missing value that the
  schema requires gives the "Required" issue, or the field's own
  `required_error` message when the schema sets one.
- The email-format check is a parameter `isEmail: string -> bool`.
- String length bounds (`.min(n)` and `.max(n)`) read JavaScript's
  `length`. That is the number of UTF-16 code units, so a character outside
  the Basic Multilingual Plane counts twice (`Text.Utf16Length`).
- Dates are day numbers, counted in days since 1970-01-01. "Today" is a
  parameter.
- Issues are listed in schema field order. The object-level refinements
  (the password-match rules) come last. They are evaluated even when a field
  rule has already failed, because none of the field rules here is fatal.

## Model

| member | source | states |
|---|---|---|
| Text.ContainsIffOccurs | src/pages/admin/Reports.tsx:249-251 | The substring test used by every search agrees with the index definition: `s` contains `sub` exactly when `sub` occurs at some index of `s`. |
| Text.Lower | src/pages/admin/Reports.tsx:249-251 | In the ASCII model, lower-casing keeps the length. Each upper-case letter becomes the lower-case letter it upper-cases back to, every other character is kept, and no upper-case letter is left. |
| Text.Capitalize | src/pages/admin/Users.tsx:478-483 | The badge label keeps the value's length and everything after its first character. A leading lower-case letter becomes its own upper-case letter, because the label lower-cases to the same string as the value. Any other first character leaves the string unchanged. |
| Text.Utf16Length | src/pages/user/Profile.tsx:44-51 | The length the schemas measure lies between the character count and twice it, and is 0 only for the empty string. |
| Text.Utf16LengthOfBmp | src/pages/user/Profile.tsx:44-51 | Without characters outside the Basic Multilingual Plane, the measured length is the character count. |
| Text.Utf16LengthConcat | src/pages/user/Profile.tsx:44-51 | The measured length of a concatenation is the sum of the parts' lengths. |
| Text.AstralCountsTwice | src/pages/user/Profile.tsx:44-46 | One character outside the Basic Multilingual Plane measures 2, so a one-emoji name passes `min(2)`. |
| Lists.FilterBy | src/pages/admin/Reports.tsx:245-263 | `filter` returns an order-preserving sub-sequence of its input. The result holds only kept elements and holds every element that is kept. |
| Lists.FilterByCounts | src/pages/user/NewReport.tsx:207-211 | `filter` keeps every occurrence of a kept value and drops every occurrence of a dropped one. |
| Lists.FilterByTwice | src/pages/admin/Users.tsx:169-184 | Filtering by one predicate and then another is the same as filtering once by their conjunction. |
| Lists.FilterByMonotone | src/pages/admin/Reports.tsx:254-262 | A stricter predicate keeps a sub-sequence of what a looser one keeps. |
| Badges.ClassName | src/pages/admin/Reports.tsx:176-205 | The tone can be read back from its class string: the fourth character names the colour, and the fifteenth tells the two destructive styles apart. |
| Badges.ClassNameInjective | src/pages/admin/Users.tsx:132-159 | Two tones give the same class string only when they are the same tone, so different tones look different on the page. |
| AdminReports.FilterReports | src/pages/admin/Reports.tsx:245-263 | The shown rows are an order-preserving sub-sequence of the reports, so the shown count never exceeds the total. A report is shown exactly when the search, type, status and severity criteria all accept it. |
| AdminReports.FilterReportsCounts | src/pages/admin/Reports.tsx:245-263 | Each accepted report is shown as many times as it occurs in the list, and a rejected one not at all. |
| AdminReports.InitialFilterShowsAll | src/pages/admin/Reports.tsx:237-263 | With the initial toolbar (empty query, all three dropdowns on "all"), every report is shown in its original order. |
| AdminReports.FilterIsConjunction | src/pages/admin/Reports.tsx:245-263 | Applying the search, type, status and severity filters one at a time shows exactly the rows the combined filter shows. |
| AdminReports.NarrowingShrinks | src/pages/admin/Reports.tsx:254-262 | Moving any dropdown from "all" to a specific value yields a sub-sequence of the previous result, never a longer list. |
| AdminReports.SearchReadsOnlyTypeNameLocation | src/pages/admin/Reports.tsx:247-251 | Search depends only on the type, reporter name and location. Reporter email, symptoms, status and severity are never searched. |
| AdminReports.SearchIgnoresQueryCase | src/pages/admin/Reports.tsx:247-254 | The search and type filters give the same result for a query and its lower-cased form. For the type filter this holds unless the lower-cased query is "all". |
| AdminReports.RespiratoryKeepsRespiratoryInfection | src/pages/admin/Reports.tsx:254 | The type filter is a case-insensitive substring test: "respiratory" keeps a "Respiratory Infection" row. |
| AdminReports.StatusFilterIsExact | src/pages/admin/Reports.tsx:257-260 | Once switched on, the status and severity filters are exact equality. "Active" does not select a row whose status is "active". |
| AdminReports.SeverityTone | src/pages/admin/Reports.tsx:176-189 | Mild, moderate, severe and critical each get their own style. Every other value gets the default style. |
| AdminReports.StatusTone | src/pages/admin/Reports.tsx:192-205 | Active, verified and flagged get their own styles. "resolved" and every unknown status get the default style. |
| AdminReports.DetailActions | src/pages/admin/Reports.tsx:696-722 | Delete and Close are always offered. Verify is offered iff the status is not "verified". Flag is offered iff it is not "flagged". Resolve is offered iff it is not "resolved". Delete comes first, Close comes last, and no button appears twice. |
| AdminReports.StatusActions | src/pages/admin/Reports.tsx:702-716 | The middle buttons: Verify, Flag and Resolve each appear exactly when their condition holds, at most once, and never Delete or Close. |
| AdminUsers.FilterUsers | src/pages/admin/Users.tsx:169-184 | The shown rows are an order-preserving sub-sequence of the users, so in "Showing n of m" n <= m. A user is shown exactly when the search, role and status criteria all accept it. |
| AdminUsers.FilterUsersCounts | src/pages/admin/Users.tsx:169-184 | Each accepted user is shown as many times as it occurs in the list, and a rejected one not at all. |
| AdminUsers.InitialFilterShowsAll | src/pages/admin/Users.tsx:163-184 | With an empty query and both dropdowns on "all", every user is shown in order. |
| AdminUsers.FilterIsConjunction | src/pages/admin/Users.tsx:169-184 | Searching first and then applying the role and status filters gives the combined result. |
| AdminUsers.NarrowingShrinks | src/pages/admin/Users.tsx:177-183 | Choosing a specific role or status instead of "all" can only shrink the shown list, and the order is kept. |
| AdminUsers.SearchReadsOnlyNameEmailLocation | src/pages/admin/Users.tsx:171-175 | Search depends only on the name, email and location. |
| AdminUsers.SearchIgnoresRole | src/pages/admin/Users.tsx:171-178 | Role text is never searched. A user with role "admin" is hidden by the query "admin" unless "admin" occurs in a searched field, even though the role dropdown would select that user. |
| AdminUsers.SearchIgnoresQueryCase | src/pages/admin/Users.tsx:171-175 | The search gives the same result for a query and its lower-cased form. |
| AdminUsers.DropdownsAreExact | src/pages/admin/Users.tsx:177-181 | Once switched on, the role and status filters are exact equality. |
| AdminUsers.RoleTone | src/pages/admin/Users.tsx:132-143 | Admin, healthcare and researcher get their own styles. Every other role gets the default style. |
| AdminUsers.StatusTone | src/pages/admin/Users.tsx:146-159 | The four known statuses get four distinct styles, and so four distinct class strings (Badges.ClassNameInjective). Every other status gets the default style. |
| AdminUsers.UserRoleHasDefaultStyle | src/pages/admin/Users.tsx:132-143 | "user" gets the same style as any unknown role. |
| AdminUsers.BadgeLabels | src/pages/admin/Users.tsx:478-483 | The role and status badges show the capitalised value: "admin" is shown as "Admin" and "pending" as "Pending". |
| NewReport.Issues | src/pages/user/NewReport.tsx:39-66 | The form is valid iff it has no issues. Each rule is reported exactly when it fails. A present but empty type or severity is accepted. Lengths are UTF-16 lengths. No other issue appears. |
| NewReport.TextIssues | src/pages/user/NewReport.tsx:53-60 | The location and description issues: each of their rules is reported exactly when it fails, and no other issue appears. |
| NewReport.SameFieldIssuesDiffer | src/pages/user/NewReport.tsx:53-60 | The issues on one field carry different messages, so a missing, a too-short and a too-long value are told apart. |
| NewReport.SelectionIssues | src/pages/user/NewReport.tsx:40-52 | The type, severity and start date are required. The symptom list must be non-empty. Each is reported exactly when it fails, and no other issue appears. |
| NewReport.LocationIssues | src/pages/user/NewReport.tsx:53-55 | The location is required and is accepted iff its UTF-16 length is at least 3. |
| NewReport.DescriptionIssues | src/pages/user/NewReport.tsx:56-60 | The description is required and is accepted iff its UTF-16 length is in [10, 500]. A short one and a long one get different messages. |
| NewReport.Submit | src/pages/user/NewReport.tsx:114-124 | A valid report leads to "/app/dashboard". An invalid one is rejected with its non-empty issue list. |
| NewReport.DefaultFormRejected | src/pages/user/NewReport.tsx:101-112 | The default form has no symptoms, type or start date, so it is rejected. |
| NewReport.DateSelectable | src/pages/user/NewReport.tsx:300-301 | A day is selectable iff it is between 2023-01-01 and today, both inclusive. |
| NewReport.SchemaIgnoresDateWindow | src/pages/user/NewReport.tsx:50-52 | The schema does not check the calendar window. A valid form stays valid with a start date the calendar would not offer. |
| NewReport.CheckSymptom | src/pages/user/NewReport.tsx:204-206 | Checking appends the symptom at the end. The earlier entries are unchanged. |
| NewReport.UncheckSymptom | src/pages/user/NewReport.tsx:207-211 | Unchecking removes every occurrence of the symptom. Every occurrence of the other entries is kept, in order: the result is a sub-sequence whose multiset is the input's with that symptom's count set to 0. |
| NewReport.ToggleSymptom | src/pages/user/NewReport.tsx:203-212 | Ticking the box is `CheckSymptom` and unticking it is `UncheckSymptom`. After the handler runs, the checkbox is ticked iff the new state is "checked". |
| NewReport.UncheckAbsentIsIdentity | src/pages/user/NewReport.tsx:207-211 | Unchecking a symptom that is not in the list changes nothing. |
| NewReport.CheckThenUncheckRestores | src/pages/user/NewReport.tsx:204-211 | Checking and then unchecking a symptom that was absent restores the original list. |
| NewReport.UncheckIdempotent | src/pages/user/NewReport.tsx:207-211 | Unchecking twice is the same as unchecking once. |
| NewReport.SyncTravelDetails | src/pages/user/NewReport.tsx:126-130 | After the sync, the travel-details box agrees with the travel question. The form is untouched, and nothing changes when the two already agree. |
| NewReport.SyncIsStable | src/pages/user/NewReport.tsx:99-130 | The sync is idempotent, and the page starts in sync. |
| AdminSettings.SystemIssues | src/pages/admin/Settings.tsx:79-88 | The site name needs a UTF-16 length of at least 2. The retention period is accepted iff 30 <= d <= 3650. No other issue appears. |
| AdminSettings.NotificationIssues | src/pages/admin/Settings.tsx:90-99 | The alert threshold is accepted iff 1 <= t <= 100. The mail server must be non-empty. No other issue appears. |
| AdminSettings.SecurityIssues | src/pages/admin/Settings.tsx:101-108 | The security form is valid iff all four inclusive bounds hold. Its issues are those of its two groups of fields. No other issue appears. |
| AdminSettings.PasswordPolicyIssues | src/pages/admin/Settings.tsx:103-104 | The minimum password length is accepted iff it is in [8, 32]. The expiry is accepted iff it is in [0, 365]. No other issue appears. |
| AdminSettings.SessionIssues | src/pages/admin/Settings.tsx:105-106 | The session timeout is accepted iff it is in [5, 1440]. Login attempts are accepted iff they are in [1, 10]. No other issue appears. |
| AdminSettings.DefaultsWithinBounds | src/pages/admin/Settings.tsx:120-158 | Every numeric and length default lies within its schema bound. Given the email check accepts the default addresses, all three default forms are valid. |
| AdminSettings.SystemDefaultsWithinBounds | src/pages/admin/Settings.tsx:120-131 | The default system form can fail only its email rule. |
| AdminSettings.NotificationDefaultsWithinBounds | src/pages/admin/Settings.tsx:133-146 | The default notification form can fail only its sender-address rule. |
| AdminSettings.OpenMaintenanceDialog | src/pages/admin/Settings.tsx:424-429 | Clicking the switch only opens the dialog. The mode is unchanged. |
| AdminSettings.CancelMaintenanceDialog | src/pages/admin/Settings.tsx:454-456 | Cancel closes the dialog and keeps the mode. |
| AdminSettings.MaintenanceDialogTitle | src/pages/admin/Settings.tsx:433-435 | The dialog asks to disable the mode when it is on and to enable it when it is off. |
| AdminSettings.ToggleMaintenanceMode | src/pages/admin/Settings.tsx:209-221 | Confirming negates the mode, closes the dialog and leaves the other settings unchanged. The toast title is "activated" iff the new value is on. |
| AdminSettings.ToggleTwiceRestores | src/pages/admin/Settings.tsx:209-213 | Toggling twice restores the original settings, with the dialog closed. |
| AdminSettings.ConfirmDoesWhatTitleSays | src/pages/admin/Settings.tsx:209-221 | The dialog asks "Disable" exactly when confirming it produces the "deactivated" toast. |
| UserSettings.SecurityIssues | src/pages/user/Settings.tsx:51-67 | A current password is required. A new password may be absent or empty, and otherwise needs a UTF-16 length of at least 8. A non-empty new password that differs from the confirmation is reported on the confirmation field. No other issue appears. |
| UserSettings.ConfirmationIgnoredWithoutNewPassword | src/pages/user/Settings.tsx:59-63 | Without a new password, any confirmation value yields the same issues. |
| UserSettings.MismatchRejectedOnConfirmation | src/pages/user/Settings.tsx:59-67 | A new password with a different confirmation, even a missing one, is rejected with an issue on `confirmPassword`. |
| UserSettings.SubmitSecurity | src/pages/user/Settings.tsx:122-133 | A valid submit resets all three password fields to "". An invalid one keeps the input and shows exactly the schema's issues, of which there is at least one. |
| UserSettings.ResetFormRejected | src/pages/user/Settings.tsx:97-133 | The reset form equals the initial one, so submitting it again is rejected because the current password is now empty. |
| UserSettings.ParsePrivacy | src/pages/user/Settings.tsx:45-49 | A missing privacy value becomes "anonymized", "city" or "registered" respectively. A present value is kept. |
| UserSettings.PrivacyDefaultsAgree | src/pages/user/Settings.tsx:45-95 | The form's starting values and the schema's defaults give the same settings: "anonymized", "city" and "registered". |
| Register.Issues | src/pages/auth/Register.tsx:22-33 | The name needs a UTF-16 length of at least 2 and the password at least 6. The terms must be accepted. A password that differs from its confirmation is reported on `confirmPassword`. The form is valid iff there are no issues. No other issue appears. |
| Register.Submit | src/pages/auth/Register.tsx:53-64 | A valid registration always leads to "/login", whatever account kind is selected. |
| Register.DefaultFormRejected | src/pages/auth/Register.tsx:42-51 | The default form (empty strings, terms unticked) is rejected for its name, password and terms, but not for the password match. |
| Register.SubmitIgnoresRole | src/pages/auth/Register.tsx:40-64 | The selected tab never changes where a submit leads. |
| Login.Issues | src/pages/auth/Login.tsx:23-27 | The password needs a UTF-16 length of at least 6. `rememberMe` has no rule. No other issue appears. |
| Login.DashboardFor | src/pages/auth/Login.tsx:54-59 | Admin goes to "/admin/dashboard". The user role goes to "/app/dashboard". |
| Login.SelectTab | src/pages/auth/Login.tsx:75 | Of the two tab values, "admin" selects the admin kind and "user" selects the user kind. |
| Login.TabValue | src/pages/auth/Login.tsx:77-78 | The admin kind's tab is "admin" and the user kind's tab is "user". |
| Login.TabRoundTrip | src/pages/auth/Login.tsx:75-78 | Selecting a kind's tab gives that kind back, and a tab's kind has that tab. The page opens on the tab of the initial user kind. |
| Login.Submit | src/pages/auth/Login.tsx:45-60 | A valid login leads to the selected kind's dashboard. An invalid one is rejected with its issues. |
| Login.DefaultFormRejected | src/pages/auth/Login.tsx:34-43 | "Remember me" starts off. The default form, with the initial user tab, fails on its empty password. |
| Profile.Issues | src/pages/user/Profile.tsx:43-54 | The name needs a UTF-16 length of at least 2. The bio is optional and has a UTF-16 length of at most 160 when present. The form is valid iff there are no issues. No other issue appears. |
| Profile.DefaultFormWithinBounds | src/pages/user/Profile.tsx:86-96 | The default name and bio satisfy their bounds. |
| Profile.ToggleEditing | src/pages/user/Profile.tsx:152-154 | The Edit/Cancel button flips edit mode and leaves the form alone. |
| Profile.ToggleTwiceRestores | src/pages/user/Profile.tsx:152 | Pressing the button twice restores the page. |
| Profile.Submit | src/pages/user/Profile.tsx:98-104 | A successful submit always leaves edit mode. A failing one changes nothing and shows exactly the schema's issues, of which there is at least one. |
| Profile.ShownOr | src/pages/user/Profile.tsx:322-329 | A missing or empty value shows the fallback. Otherwise the value is shown. |
| Profile.EmptyFieldFallbacks | src/pages/user/Profile.tsx:140-329 | An empty location shows "Not specified" in the overview and "Not provided" in the contact card. An empty phone shows "Not provided". No line is ever blank. |

## Left out

- JSX rendering, cards, tables, tabs, charts and the hard-coded dashboard figures are presentation or static data.
- The mock report and user arrays are left out. The filters are modelled over any list.
- Toasts and `console.log` are side effects. The maintenance toast's title is kept because it depends on the new mode.
- The backup simulation (src/pages/admin/Settings.tsx:184-196) is left out because it is a timer. The restore dialog (198-207) only closes and fires a toast.
- The stub handlers for status change, role change, delete, verify, flag and add user change no data and only fire a toast.
- Opening and closing the report detail dialog and the narrative sentence inside it are presentation. Only the offered actions are modelled.
- The phone field of the user notification form is shown only when SMS is on. Its schema has no rule beyond types, so it is left out as presentation.
- Routing, layouts, sidebars and the header are wiring with no logic of their own.
- Email format is a parameter. The library's email pattern is not modelled.
- Numeric inputs are `int`. `parseInt` of a non-number (NaN) is not modelled.
- `Text.Capitalize`: case mapping is ASCII only. The Unicode `toUpperCase` can change a string's length (for example "ß" becomes "SS").
- `Text.Lower`: case mapping is ASCII only, so it keeps the length. JavaScript's `toLowerCase` also maps non-ASCII letters and can change the length: "İ" lower-cases to two code units. The search results for such text are not modelled.
- `NewReport.DateSelectable`: whole days only. The calendar compares against the current time, and it parses "2023-01-01" as UTC midnight, so whether that first day itself is offered depends on the browser's time zone. The model always offers it.
