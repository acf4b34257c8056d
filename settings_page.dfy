// The settings page: its validation schema, the `classNames` helper, loading the stored
// profile and settings with their fallbacks, saving them, and the handlers that change the
// theme, flip a switch or change the password. `isEmail` stands for zod's e-mail check; the
// page's `dark` class on the document root is a field of the page.

module SettingsPage {
  import opened JsCommon
  import opened JsText
  import opened Seqs

  // ------------------------------------------------------------ the state

  datatype Profile = Profile(fullName: string, email: string, bio: string)

  datatype Notifications = Notifications(email: bool, interviewReminders: bool, performanceReports: bool)

  datatype Preferences = Preferences(theme: string, language: string, soundEffects: bool)

  /** The page's `settings` object: the three groups and the five switches of the switch list. */
  datatype State = State(profile: Profile, notifications: Notifications, preferences: Preferences,
                         emailNotifications: bool, interviewReminders: bool, weeklyReports: bool, darkMode: bool,
                         autoSave: bool)

  const AllNotifications := Notifications(true, true, true)

  const InitialState := State(Profile("", "", ""), AllNotifications, Preferences("light", "en", true),
                              true, true, true, false, true)

  const Themes: seq<string> := ["light", "dark"]
  const Languages: seq<string> := ["en", "es", "fr", "de", "ja", "ko", "zh"]

  // ------------------------------------------------------------ the schema

  datatype Field = FullName | Email | Bio | Theme | Language

  datatype Issue = TooShort(field: Field) | NotAnEmail | TooLong(field: Field) | NotInEnum(field: Field)

  function When(failed: bool, issue: Issue): (r: seq<Issue>)
    ensures failed ==> r == [issue]
    ensures !failed ==> r == []
  {
    if failed then [issue] else []
  }

  /**
   * `settingsSchema`: a name of at least two characters, an e-mail address, a bio of at most
   * 500 characters, a known theme and language. The notification and sound flags are booleans
   * and always pass; the five switches are not part of the schema.
   */
  function SettingsIssues(s: State, isEmail: string -> bool): (r: seq<Issue>)
    ensures r == [] <==> |s.profile.fullName| >= 2 && isEmail(s.profile.email) && |s.profile.bio| <= 500 &&
                         s.preferences.theme in Themes && s.preferences.language in Languages
    ensures TooShort(FullName) in r <==> |s.profile.fullName| < 2
    ensures NotAnEmail in r <==> !isEmail(s.profile.email)
    ensures TooLong(Bio) in r <==> |s.profile.bio| > 500
    ensures NotInEnum(Theme) in r <==> s.preferences.theme !in Themes
    ensures NotInEnum(Language) in r <==> s.preferences.language !in Languages
  {
    When(|s.profile.fullName| < 2, TooShort(FullName)) + When(!isEmail(s.profile.email), NotAnEmail) +
    When(|s.profile.bio| > 500, TooLong(Bio)) + When(s.preferences.theme !in Themes, NotInEnum(Theme)) +
    When(s.preferences.language !in Languages, NotInEnum(Language))
  }

  /** The switches never affect validation. */
  lemma SwitchesNotValidated(s: State, flag: Flag, isEmail: string -> bool)
    ensures SettingsIssues(Toggled(s, flag), isEmail) == SettingsIssues(s, isEmail)
  {
  }

  // ------------------------------------------------------------ classNames

  function NonEmpty(c: string): bool
  {
    c != ""
  }

  /** `classNames(...classes)`: the non-empty classes joined by single spaces. */
  function ClassNames(classes: seq<string>): string
  {
    Join(Filter(classes, NonEmpty), " ")
  }

  /** Splitting the result at spaces gives back exactly the non-empty classes, in order. */
  lemma ClassNamesReadBack(classes: seq<string>)
    requires forall k :: 0 <= k < |classes| ==> ' ' !in classes[k]
    requires exists k :: 0 <= k < |classes| && classes[k] != ""
    ensures Split(ClassNames(classes), ' ') == Filter(classes, NonEmpty)
  {
    var kept := Filter(classes, NonEmpty);
    var k :| 0 <= k < |classes| && classes[k] != "";
    assert classes[k] in kept;
    assert " " == [' '];
    SplitJoin(kept, ' ');
  }

  /** With no non-empty class the result is the empty string. */
  lemma ClassNamesOfEmpties(classes: seq<string>)
    requires forall k :: 0 <= k < |classes| ==> classes[k] == ""
    ensures ClassNames(classes) == ""
  {
    FilterNone(classes, NonEmpty);
  }

  // ------------------------------------------------------------ loading

  /** `value || fallback` on an optional text column. */
  function TextOr(v: Option<string>, fallback: string): (r: string)
    ensures v.Some? && v.value != "" ==> r == v.value
    ensures v.None? || v.value == "" ==> r == fallback
  {
    if v.Some? && v.value != "" then v.value else fallback
  }

  /** A stored notification flag read back as written, `stored || true`: true whatever was stored. */
  function FlagAsWritten(stored: Option<bool>): (r: bool)
  {
    (stored.Some? && stored.value) || true
  }

  /** A stored `false` is shown as on. */
  lemma StoredFalseShownAsOn()
    ensures FlagAsWritten(Some(false))
  {
  }

  /** The evidently intended reading, `stored ?? true`: on only when not stored as off. */
  function StoredFlag(stored: Option<bool>): (r: bool)
    ensures stored.Some? ==> r == stored.value
    ensures stored.None? ==> r
  {
    if stored.Some? then stored.value else true
  }

  /** Under the intended reading a stored switch reads back as itself. */
  lemma FlagReadsBack(b: bool)
    ensures StoredFlag(Some(b)) == b
  {
  }

  datatype ProfileRow = ProfileRow(fullName: Option<string>, email: Option<string>, bio: Option<string>)

  /** A stored settings row; `None` for a missing column. */
  datatype SettingsRow = SettingsRow(notificationPreferences: Option<Notifications>, theme: Option<string>,
                                     language: Option<string>)

  /** The answer to the profile read: the row, or an error (`single()` also fails on no row). */
  datatype ProfileOutcome = ProfileLoaded(row: ProfileRow) | ProfileFailed

  /** The answer to the settings read: a row or none, or an error with its code. */
  datatype SettingsOutcome = SettingsLoaded(row: Option<SettingsRow>) | SettingsFailed(code: string)

  /** The error code for "no row", which the settings read tolerates. */
  const NoRowCode := "PGRST116"

  /** The stored theme, `'light'` when there is none. */
  function ThemeOf(row: Option<SettingsRow>): (t: string)
    ensures row.None? ==> t == "light"
  {
    if row.Some? then TextOr(row.value.theme, "light") else "light"
  }

  /** The state a successful load shows, with the notification switches read as intended. */
  function LoadedState(profile: ProfileRow, row: Option<SettingsRow>): (s: State)
    ensures s.profile == Profile(TextOr(profile.fullName, ""), TextOr(profile.email, ""), TextOr(profile.bio, ""))
    ensures row.None? ==> s.notifications == AllNotifications && s.preferences == Preferences("light", "en", true)
    ensures s.darkMode <==> ThemeOf(row) == "dark"
    ensures row.Some? && row.value.notificationPreferences.Some? ==>
              s.notifications == row.value.notificationPreferences.value &&
              s.emailNotifications == s.notifications.email &&
              s.interviewReminders == s.notifications.interviewReminders &&
              s.weeklyReports == s.notifications.performanceReports
    ensures s.autoSave
  {
    var prefs := if row.Some? then row.value.notificationPreferences else None;
    State(Profile(TextOr(profile.fullName, ""), TextOr(profile.email, ""), TextOr(profile.bio, "")),
          if prefs.Some? then prefs.value else AllNotifications,
          Preferences(ThemeOf(row), if row.Some? then TextOr(row.value.language, "en") else "en", true),
          StoredFlag(if prefs.Some? then Some(prefs.value.email) else None),
          StoredFlag(if prefs.Some? then Some(prefs.value.interviewReminders) else None),
          StoredFlag(if prefs.Some? then Some(prefs.value.performanceReports) else None),
          ThemeOf(row) == "dark", true)
  }

  const MockName := "John Doe"
  const MockEmail := "user@example.com"
  const MockBio := "This is a mock bio. Supabase is not configured."

  const LoadError := "Failed to load settings"
  const InvalidError := "Invalid settings data"
  const SaveError := "Failed to save settings"

  // ------------------------------------------------------------ the switches

  datatype Flag = EmailNotifications | InterviewReminders | WeeklyReports | DarkMode | AutoSave

  function Get(s: State, flag: Flag): bool
  {
    match flag
    case EmailNotifications => s.emailNotifications
    case InterviewReminders => s.interviewReminders
    case WeeklyReports => s.weeklyReports
    case DarkMode => s.darkMode
    case AutoSave => s.autoSave
  }

  /** `handleToggle`: the named switch flips; every other switch and every group stays. */
  function Toggled(s: State, flag: Flag): (r: State)
    ensures Get(r, flag) == !Get(s, flag)
    ensures forall other :: other != flag ==> Get(r, other) == Get(s, other)
    ensures r.profile == s.profile && r.notifications == s.notifications && r.preferences == s.preferences
  {
    match flag
    case EmailNotifications => s.(emailNotifications := !s.emailNotifications)
    case InterviewReminders => s.(interviewReminders := !s.interviewReminders)
    case WeeklyReports => s.(weeklyReports := !s.weeklyReports)
    case DarkMode => s.(darkMode := !s.darkMode)
    case AutoSave => s.(autoSave := !s.autoSave)
  }

  lemma ToggleTwice(s: State, flag: Flag)
    ensures Toggled(Toggled(s, flag), flag) == s
  {
  }

  /** A key of the notification group: `email`, `interviewReminders`, `performanceReports`. */
  datatype NotificationKey = EmailKey | RemindersKey | ReportsKey

  function Notified(n: Notifications, key: NotificationKey): bool
  {
    match key
    case EmailKey => n.email
    case RemindersKey => n.interviewReminders
    case ReportsKey => n.performanceReports
  }

  /** A switch of the notification group: the named notification flips; the rest of the settings stays. */
  function NotificationToggled(s: State, key: NotificationKey): (r: State)
    ensures Notified(r.notifications, key) == !Notified(s.notifications, key)
    ensures forall other :: other != key ==> Notified(r.notifications, other) == Notified(s.notifications, other)
    ensures r == s.(notifications := r.notifications)
  {
    var n := s.notifications;
    match key
    case EmailKey => s.(notifications := n.(email := !n.email))
    case RemindersKey => s.(notifications := n.(interviewReminders := !n.interviewReminders))
    case ReportsKey => s.(notifications := n.(performanceReports := !n.performanceReports))
  }

  lemma NotificationToggleTwice(s: State, key: NotificationKey)
    ensures NotificationToggled(NotificationToggled(s, key), key) == s
  {
  }

  /** The sound-effects switch: only that preference flips. */
  function SoundToggled(s: State): (r: State)
    ensures r.preferences.soundEffects == !s.preferences.soundEffects
    ensures r == s.(preferences := s.preferences.(soundEffects := r.preferences.soundEffects))
  {
    s.(preferences := s.preferences.(soundEffects := !s.preferences.soundEffects))
  }

  lemma SoundToggleTwice(s: State)
    ensures SoundToggled(SoundToggled(s)) == s
  {
  }

  // ------------------------------------------------------------ saving

  /** The writes `saveSettings` makes, in order. */
  datatype Write = ProfileWrite(fullName: string, email: string, bio: string) |
                   SettingsWrite(theme: string, language: string, notifications: Notifications)

  function ProfileWriteOf(s: State): Write
  {
    ProfileWrite(s.profile.fullName, s.profile.email, s.profile.bio)
  }

  function SettingsWriteOf(s: State): Write
  {
    SettingsWrite(s.preferences.theme, s.preferences.language, s.notifications)
  }

  /** Saving and loading back the written rows restores the profile, the groups and the theme's switch. */
  lemma SavedReadsBack(s: State, isEmail: string -> bool)
    requires SettingsIssues(s, isEmail) == []
    requires s.profile.fullName != "" && s.profile.email != "" && s.profile.bio != ""
    ensures var st := LoadedState(ProfileRow(Some(s.profile.fullName), Some(s.profile.email), Some(s.profile.bio)),
                                  Some(SettingsRow(Some(s.notifications), Some(s.preferences.theme),
                                                   Some(s.preferences.language))));
      st.profile == s.profile && st.notifications == s.notifications &&
      st.preferences == s.preferences.(soundEffects := true) &&
      (st.darkMode <==> s.preferences.theme == "dark")
  {
    assert s.preferences.theme != "" by { assert s.preferences.theme in Themes; }
    assert s.preferences.language != "" by { assert s.preferences.language in Languages; }
  }

  class Page {
    var settings: State
    var loading: bool
    var saving: bool
    var error: Option<string>
    /** Whether the document root has the `dark` class. */
    var darkClass: bool
    var newPassword: string
    var confirmPassword: string
    var showPasswordModal: bool

    constructor ()
      ensures settings == InitialState && loading && !saving && error.None?
      ensures newPassword == "" && confirmPassword == "" && !showPasswordModal
    {
      settings := InitialState;
      loading := true;
      saving := false;
      error := None;
      darkClass := false;
      newPassword := "";
      confirmPassword := "";
      showPasswordModal := false;
    }

    /**
     * `loadSettings`. Without a user or a configured backend: the mock profile and default
     * preferences, every other part of the state kept, the dark class off. Otherwise the
     * profile and settings reads; a failed profile read, or a failed settings read other than
     * "no row", shows the load error and keeps the state.
     */
    method Load(user: Option<Option<string>>, configured: bool, profile: ProfileOutcome, stored: SettingsOutcome)
      modifies this
      ensures !loading
      ensures user.None? || !configured ==>
                settings == old(settings).(profile := Profile(MockName, if user.Some? then TextOr(user.value, MockEmail)
                                                                        else MockEmail, MockBio),
                                           preferences := Preferences("light", "en", true)) &&
                !darkClass && error == old(error)
      ensures user.Some? && configured && (profile.ProfileFailed? || (stored.SettingsFailed? && stored.code != NoRowCode)) ==>
                settings == old(settings) && darkClass == old(darkClass) && error == Some(LoadError)
      ensures user.Some? && configured && profile.ProfileLoaded? && stored.SettingsLoaded? ==>
                settings == LoadedState(profile.row, stored.row) && (darkClass <==> ThemeOf(stored.row) == "dark") &&
                error.None?
      ensures user.Some? && configured && profile.ProfileLoaded? && stored.SettingsFailed? && stored.code == NoRowCode ==>
                settings == LoadedState(profile.row, None) && !darkClass && error.None?
      ensures saving == old(saving) && newPassword == old(newPassword) && confirmPassword == old(confirmPassword)
      ensures showPasswordModal == old(showPasswordModal)
    {
      if user.None? || !configured {
        var email := if user.Some? then TextOr(user.value, MockEmail) else MockEmail;
        settings := settings.(profile := Profile(MockName, email, MockBio),
                              preferences := Preferences("light", "en", true));
        darkClass := false;
        loading := false;
        return;
      }
      loading := true;
      error := None;
      if profile.ProfileFailed? || (stored.SettingsFailed? && stored.code != NoRowCode) {
        error := Some(LoadError);
        loading := false;
        return;
      }
      var row := if stored.SettingsLoaded? then stored.row else None;
      settings := LoadedState(profile.row, row);
      darkClass := ThemeOf(row) == "dark";
      loading := false;
    }

    /**
     * `saveSettings`: without a user nothing happens. Otherwise the state is validated (an
     * invalid one writes nothing), then the profile and then the settings are written; the
     * first failed write stops the save. Only a complete save applies the theme.
     */
    method Save(signedIn: bool, isEmail: string -> bool, profileOk: bool, settingsOk: bool)
      returns (writes: seq<Write>)
      modifies this
      ensures !signedIn ==> writes == [] && error == old(error) && darkClass == old(darkClass) && saving == old(saving)
      ensures signedIn ==> !saving
      ensures signedIn && SettingsIssues(old(settings), isEmail) != [] ==>
                writes == [] && error == Some(InvalidError) && darkClass == old(darkClass)
      ensures signedIn && SettingsIssues(old(settings), isEmail) == [] && !profileOk ==>
                writes == [ProfileWriteOf(old(settings))] && error == Some(SaveError) && darkClass == old(darkClass)
      ensures signedIn && SettingsIssues(old(settings), isEmail) == [] && profileOk && !settingsOk ==>
                writes == [ProfileWriteOf(old(settings)), SettingsWriteOf(old(settings))] &&
                error == Some(SaveError) && darkClass == old(darkClass)
      ensures signedIn && SettingsIssues(old(settings), isEmail) == [] && profileOk && settingsOk ==>
                writes == [ProfileWriteOf(old(settings)), SettingsWriteOf(old(settings))] && error.None? &&
                (darkClass <==> old(settings).preferences.theme == "dark")
      ensures settings == old(settings) && loading == old(loading)
      ensures newPassword == old(newPassword) && confirmPassword == old(confirmPassword)
      ensures showPasswordModal == old(showPasswordModal)
    {
      writes := [];
      if !signedIn {
        return;
      }
      saving := true;
      error := None;
      if SettingsIssues(settings, isEmail) != [] {
        error := Some(InvalidError);
        saving := false;
        return;
      }
      writes := [ProfileWriteOf(settings)];
      if !profileOk {
        error := Some(SaveError);
        saving := false;
        return;
      }
      writes := writes + [SettingsWriteOf(settings)];
      if !settingsOk {
        error := Some(SaveError);
        saving := false;
        return;
      }
      darkClass := settings.preferences.theme == "dark";
      saving := false;
    }

    /** `handleThemeChange`: only the theme preference changes, and the dark class follows it. */
    method ThemeChange(dark: bool)
      modifies this
      ensures settings == old(settings).(preferences := old(settings).preferences.(theme := if dark then "dark" else "light"))
      ensures darkClass == dark
      ensures loading == old(loading) && saving == old(saving) && error == old(error)
      ensures newPassword == old(newPassword) && confirmPassword == old(confirmPassword)
      ensures showPasswordModal == old(showPasswordModal)
    {
      var theme := if dark then "dark" else "light";
      settings := settings.(preferences := settings.preferences.(theme := theme));
      darkClass := theme == "dark";
    }

    method Toggle(flag: Flag)
      modifies this
      ensures settings == Toggled(old(settings), flag)
      ensures darkClass == old(darkClass) && loading == old(loading) && saving == old(saving) && error == old(error)
      ensures newPassword == old(newPassword) && confirmPassword == old(confirmPassword)
      ensures showPasswordModal == old(showPasswordModal)
    {
      settings := Toggled(settings, flag);
    }

    /** A click on a switch of the notification group. */
    method ToggleNotification(key: NotificationKey)
      modifies this
      ensures settings == NotificationToggled(old(settings), key)
      ensures darkClass == old(darkClass) && loading == old(loading) && saving == old(saving) && error == old(error)
      ensures newPassword == old(newPassword) && confirmPassword == old(confirmPassword)
      ensures showPasswordModal == old(showPasswordModal)
    {
      settings := NotificationToggled(settings, key);
    }

    /** A click on the sound-effects switch. */
    method ToggleSound()
      modifies this
      ensures settings == SoundToggled(old(settings))
      ensures darkClass == old(darkClass) && loading == old(loading) && saving == old(saving) && error == old(error)
      ensures newPassword == old(newPassword) && confirmPassword == old(confirmPassword)
      ensures showPasswordModal == old(showPasswordModal)
    {
      settings := SoundToggled(settings);
    }

    /**
     * `handlePasswordChange`: differing passwords stop before any call. Otherwise the new
     * password is sent; success closes the dialog and clears both fields, failure keeps them.
     */
    method PasswordChange(updateOk: bool) returns (sent: Option<string>)
      modifies this
      ensures sent.None? <==> old(newPassword) != old(confirmPassword)
      ensures sent.Some? ==> sent.value == old(newPassword)
      ensures sent.Some? && updateOk ==> !showPasswordModal && newPassword == "" && confirmPassword == ""
      ensures sent.None? || !updateOk ==>
                showPasswordModal == old(showPasswordModal) && newPassword == old(newPassword) &&
                confirmPassword == old(confirmPassword)
      ensures settings == old(settings) && error == old(error) && darkClass == old(darkClass)
      ensures loading == old(loading) && saving == old(saving)
    {
      if newPassword != confirmPassword {
        return None;
      }
      sent := Some(newPassword);
      if updateOk {
        showPasswordModal := false;
        newPassword := "";
        confirmPassword := "";
      }
    }
  }
}
