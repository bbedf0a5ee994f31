/**
  The admin settings page: the system, notification and security forms with
  their bounds and defaults, and the maintenance-mode switch with its
  confirmation dialog.
*/
module AdminSettings {
  import opened Forms
  import opened Text

  // ---------------------------------------------------------------- system

  datatype SystemSettings = SystemSettings(
    siteName: string,
    adminEmail: string,
    dataRetentionDays: int,
    userRegistration: bool,
    requireApproval: bool,
    publicDataSharing: bool,
    maintenanceMode: bool,
    loggingLevel: string)

  datatype SystemField = SiteName | AdminEmail | DataRetentionDays

  const SiteNameTooShort: Issue<SystemField> := Issue(SiteName, "Site name must be at least 2 characters")
  const AdminEmailInvalid: Issue<SystemField> := Issue(AdminEmail, "Please enter a valid email address")
  const RetentionTooShort: Issue<SystemField> := Issue(DataRetentionDays, "Data retention must be at least 30 days")
  const RetentionTooLong: Issue<SystemField> := Issue(DataRetentionDays, "Data retention cannot exceed 10 years")

  const DefaultSystem: SystemSettings :=
    SystemSettings("Sickness Recording and Reporting System", "admin@srrs.example.com", 365,
                   true, false, true, false, "info")

  predicate SystemValid(s: SystemSettings, isEmail: string -> bool) {
    Utf16Length(s.siteName) >= 2 && isEmail(s.adminEmail) && 30 <= s.dataRetentionDays <= 3650
  }

  /** The system form's issues: the site name needs two characters, the
      retention period is accepted exactly within 30..3650 days. */
  function SystemIssues(s: SystemSettings, isEmail: string -> bool): (r: seq<Issue<SystemField>>)
    ensures r == [] <==> SystemValid(s, isEmail)
    ensures SiteNameTooShort in r <==> Utf16Length(s.siteName) < 2
    ensures AdminEmailInvalid in r <==> !isEmail(s.adminEmail)
    ensures RetentionTooShort in r <==> s.dataRetentionDays < 30
    ensures RetentionTooLong in r <==> s.dataRetentionDays > 3650
    ensures forall x :: x in r ==> x in {SiteNameTooShort, AdminEmailInvalid, RetentionTooShort, RetentionTooLong}
  {
    Rule(Utf16Length(s.siteName) >= 2, SiteNameTooShort)
    + Rule(isEmail(s.adminEmail), AdminEmailInvalid)
    + RangeRule(s.dataRetentionDays, 30, 3650, RetentionTooShort, RetentionTooLong)
  }

  // ---------------------------------------------------------- notifications

  datatype NotificationSettings = NotificationSettings(
    emailNotifications: bool,
    smsNotifications: bool,
    criticalAlertThreshold: int,
    notifyNewRegistrations: bool,
    notifySystemIssues: bool,
    dailyReportSummary: bool,
    emailFrom: string,
    emailServer: string)

  datatype NotificationField = CriticalAlertThreshold | EmailFrom | EmailServer

  const ThresholdTooLow: Issue<NotificationField> := Issue(CriticalAlertThreshold, "Threshold must be at least 1")
  const ThresholdTooHigh: Issue<NotificationField> := Issue(CriticalAlertThreshold, "Threshold cannot exceed 100")
  const EmailFromInvalid: Issue<NotificationField> := Issue(EmailFrom, "Please enter a valid email address")
  const EmailServerMissing: Issue<NotificationField> := Issue(EmailServer, "SMTP server is required")

  const DefaultNotification: NotificationSettings :=
    NotificationSettings(true, false, 10, true, true, true, "notifications@srrs.example.com", "smtp.example.com")

  predicate NotificationValid(n: NotificationSettings, isEmail: string -> bool) {
    1 <= n.criticalAlertThreshold <= 100 && isEmail(n.emailFrom) && Utf16Length(n.emailServer) >= 1
  }

  /** The notification form's issues: the alert threshold is accepted exactly
      within 1..100 and the mail server must be non-empty. */
  function NotificationIssues(n: NotificationSettings, isEmail: string -> bool): (r: seq<Issue<NotificationField>>)
    ensures r == [] <==> NotificationValid(n, isEmail)
    ensures ThresholdTooLow in r <==> n.criticalAlertThreshold < 1
    ensures ThresholdTooHigh in r <==> n.criticalAlertThreshold > 100
    ensures EmailFromInvalid in r <==> !isEmail(n.emailFrom)
    ensures EmailServerMissing in r <==> n.emailServer == ""
    ensures forall x :: x in r ==> x in {ThresholdTooLow, ThresholdTooHigh, EmailFromInvalid, EmailServerMissing}
  {
    RangeRule(n.criticalAlertThreshold, 1, 100, ThresholdTooLow, ThresholdTooHigh)
    + Rule(isEmail(n.emailFrom), EmailFromInvalid)
    + Rule(Utf16Length(n.emailServer) >= 1, EmailServerMissing)
  }

  // --------------------------------------------------------------- security

  datatype SecuritySettings = SecuritySettings(
    twoFactorAuth: bool,
    passwordMinLength: int,
    passwordExpireDays: int,
    sessionTimeout: int,
    loginAttempts: int,
    ipBlocking: bool)

  datatype SecurityField = PasswordMinLength | PasswordExpireDays | SessionTimeout | LoginAttempts

  const MinLengthTooLow: Issue<SecurityField> := Issue(PasswordMinLength, "Password must be at least 8 characters")
  const MinLengthTooHigh: Issue<SecurityField> := Issue(PasswordMinLength, "Password cannot exceed 32 characters")
  const ExpiryTooLow: Issue<SecurityField> := Issue(PasswordExpireDays, "Password expiry must be a positive number")
  const ExpiryTooHigh: Issue<SecurityField> := Issue(PasswordExpireDays, "Password expiry cannot exceed 365 days")
  const TimeoutTooLow: Issue<SecurityField> := Issue(SessionTimeout, "Session timeout must be at least 5 minutes")
  const TimeoutTooHigh: Issue<SecurityField> := Issue(SessionTimeout, "Session timeout cannot exceed 1440 minutes (24 hours)")
  const AttemptsTooLow: Issue<SecurityField> := Issue(LoginAttempts, "Login attempts must be at least 1")
  const AttemptsTooHigh: Issue<SecurityField> := Issue(LoginAttempts, "Login attempts cannot exceed 10")

  const DefaultSecurity: SecuritySettings := SecuritySettings(false, 10, 90, 60, 5, true)

  /** The security bounds, all inclusive. */
  predicate SecurityValid(s: SecuritySettings) {
    && 8 <= s.passwordMinLength <= 32
    && 0 <= s.passwordExpireDays <= 365
    && 5 <= s.sessionTimeout <= 1440
    && 1 <= s.loginAttempts <= 10
  }

  /** The security form's issues: the password-policy fields first, then
      the session fields, each range reported on its own field. */
  function SecurityIssues(s: SecuritySettings): (r: seq<Issue<SecurityField>>)
    ensures r == [] <==> SecurityValid(s)
    ensures forall x :: x in r <==> x in PasswordPolicyIssues(s) || x in SessionIssues(s)
    ensures forall x :: x in r ==> x in {MinLengthTooLow, MinLengthTooHigh, ExpiryTooLow, ExpiryTooHigh, TimeoutTooLow, TimeoutTooHigh, AttemptsTooLow, AttemptsTooHigh}
  {
    PasswordPolicyIssues(s) + SessionIssues(s)
  }

  /** The minimum password length is accepted exactly within 8..32, the
      expiry exactly within 0..365 days. */
  function PasswordPolicyIssues(s: SecuritySettings): (r: seq<Issue<SecurityField>>)
    ensures r == [] <==> 8 <= s.passwordMinLength <= 32 && 0 <= s.passwordExpireDays <= 365
    ensures MinLengthTooLow in r <==> s.passwordMinLength < 8
    ensures MinLengthTooHigh in r <==> s.passwordMinLength > 32
    ensures ExpiryTooLow in r <==> s.passwordExpireDays < 0
    ensures ExpiryTooHigh in r <==> s.passwordExpireDays > 365
    ensures forall x :: x in r ==> x in {MinLengthTooLow, MinLengthTooHigh, ExpiryTooLow, ExpiryTooHigh}
  {
    RangeRule(s.passwordMinLength, 8, 32, MinLengthTooLow, MinLengthTooHigh)
    + RangeRule(s.passwordExpireDays, 0, 365, ExpiryTooLow, ExpiryTooHigh)
  }

  /** The session timeout is accepted exactly within 5..1440 minutes, the
      login attempts exactly within 1..10. */
  function SessionIssues(s: SecuritySettings): (r: seq<Issue<SecurityField>>)
    ensures r == [] <==> 5 <= s.sessionTimeout <= 1440 && 1 <= s.loginAttempts <= 10
    ensures TimeoutTooLow in r <==> s.sessionTimeout < 5
    ensures TimeoutTooHigh in r <==> s.sessionTimeout > 1440
    ensures AttemptsTooLow in r <==> s.loginAttempts < 1
    ensures AttemptsTooHigh in r <==> s.loginAttempts > 10
    ensures forall x :: x in r ==> x in {TimeoutTooLow, TimeoutTooHigh, AttemptsTooLow, AttemptsTooHigh}
  {
    RangeRule(s.sessionTimeout, 5, 1440, TimeoutTooLow, TimeoutTooHigh)
    + RangeRule(s.loginAttempts, 1, 10, AttemptsTooLow, AttemptsTooHigh)
  }

  /** Every numeric and length default of the three forms lies within its
      bound; with an email check that accepts the two default addresses, all
      three default forms are valid. */
  lemma DefaultsWithinBounds(isEmail: string -> bool)
    ensures SiteNameTooShort !in SystemIssues(DefaultSystem, isEmail)
    ensures RetentionTooShort !in SystemIssues(DefaultSystem, isEmail)
    ensures RetentionTooLong !in SystemIssues(DefaultSystem, isEmail)
    ensures ThresholdTooLow !in NotificationIssues(DefaultNotification, isEmail)
    ensures ThresholdTooHigh !in NotificationIssues(DefaultNotification, isEmail)
    ensures EmailServerMissing !in NotificationIssues(DefaultNotification, isEmail)
    ensures SecurityIssues(DefaultSecurity) == []
    ensures isEmail(DefaultSystem.adminEmail) ==> SystemValid(DefaultSystem, isEmail)
    ensures isEmail(DefaultNotification.emailFrom) ==> NotificationValid(DefaultNotification, isEmail)
  {
    SystemDefaultsWithinBounds(isEmail);
    NotificationDefaultsWithinBounds(isEmail);
  }

  /** The default site name and retention period lie within their bounds. */
  lemma SystemDefaultsWithinBounds(isEmail: string -> bool)
    ensures SystemIssues(DefaultSystem, isEmail) == Rule(isEmail(DefaultSystem.adminEmail), AdminEmailInvalid)
  {
  }

  /** The default threshold and mail server lie within their bounds. */
  lemma NotificationDefaultsWithinBounds(isEmail: string -> bool)
    ensures NotificationIssues(DefaultNotification, isEmail) == Rule(isEmail(DefaultNotification.emailFrom), EmailFromInvalid)
  {
  }

  // ------------------------------------------------------- maintenance mode

  /** The part of the page the maintenance switch touches: the system form
      and whether the confirmation dialog is open. */
  datatype SettingsPage = SettingsPage(system: SystemSettings, maintenanceDialogOpen: bool)

  const ActivatedTitle: string := "Maintenance mode activated"
  const DeactivatedTitle: string := "Maintenance mode deactivated"

  /** Clicking the switch only opens the confirmation dialog; the mode itself
      does not change yet. */
  function OpenMaintenanceDialog(p: SettingsPage): (r: SettingsPage)
    ensures r.maintenanceDialogOpen
    ensures r.system == p.system
  {
    p.(maintenanceDialogOpen := true)
  }

  /** Cancelling the dialog closes it and leaves the mode as it was. */
  function CancelMaintenanceDialog(p: SettingsPage): (r: SettingsPage)
    ensures !r.maintenanceDialogOpen
    ensures r.system == p.system
  {
    p.(maintenanceDialogOpen := false)
  }

  /** The dialog asks to disable the mode when it is on and to enable it when
      it is off. */
  function MaintenanceDialogTitle(p: SettingsPage): (title: string)
    ensures p.system.maintenanceMode ==> title == "Disable Maintenance Mode?"
    ensures !p.system.maintenanceMode ==> title == "Enable Maintenance Mode?"
  {
    if p.system.maintenanceMode then "Disable Maintenance Mode?" else "Enable Maintenance Mode?"
  }

  /** The page after confirming, and the title of the toast it shows. */
  datatype Toggled = Toggled(page: SettingsPage, toastTitle: string)

  /** Confirming the dialog: the mode becomes the negation of its current
      value, the dialog closes, no other setting changes, and the toast title
      follows the new value. */
  function ToggleMaintenanceMode(p: SettingsPage): (r: Toggled)
    ensures r.page.system == p.system.(maintenanceMode := !p.system.maintenanceMode)
    ensures !r.page.maintenanceDialogOpen
    ensures r.toastTitle == ActivatedTitle <==> r.page.system.maintenanceMode
    ensures r.toastTitle == DeactivatedTitle <==> !r.page.system.maintenanceMode
  {
    var newValue := !p.system.maintenanceMode;
    assert ActivatedTitle[18] != DeactivatedTitle[18];
    Toggled(SettingsPage(p.system.(maintenanceMode := newValue), false),
            if newValue then ActivatedTitle else DeactivatedTitle)
  }

  /** Toggling twice restores the original mode, and everything else on the
      system form, with the dialog closed. */
  lemma ToggleTwiceRestores(p: SettingsPage)
    ensures ToggleMaintenanceMode(ToggleMaintenanceMode(p).page).page == p.(maintenanceDialogOpen := false)
  {
  }

  /** Opening the dialog and confirming performs what the dialog's title asks:
      "Disable" leads to the deactivated toast, "Enable" to the activated one. */
  lemma ConfirmDoesWhatTitleSays(p: SettingsPage)
    ensures MaintenanceDialogTitle(OpenMaintenanceDialog(p)) == "Disable Maintenance Mode?"
        <==> ToggleMaintenanceMode(OpenMaintenanceDialog(p)).toastTitle == DeactivatedTitle
  {
  }
}
