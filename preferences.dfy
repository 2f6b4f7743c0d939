/** The preferences of the profile page: theme, language, notification
    flags and working hours, with a dirty flag, a save that only clears it
    and a reset to the initial record. */
module PreferencesSection {
  import opened Common

  datatype NotificationFlag = TaskReminders | AISuggestions | TeamUpdates | WeeklyReports
                            | EmailDigest | PushNotifications | SoundEnabled

  /** The first argument of `handlePreferenceChange`, down to the field of
      an object category. */
  datatype PreferenceField = Theme | Language | WorkingStart | WorkingEnd | WorkingTimezone

  datatype Notifications = Notifications(taskReminders: bool, aiSuggestions: bool, teamUpdates: bool,
                                         weeklyReports: bool, emailDigest: bool, pushNotifications: bool,
                                         soundEnabled: bool)

  datatype WorkingHours = WorkingHours(start: string, end: string, timezone: string)

  datatype Preferences = Preferences(theme: string, language: string,
                                     notifications: Notifications, workingHours: WorkingHours)

  /** The initial record, which reset also restores. */
  const DefaultPreferences: Preferences := Preferences("auto", "en",
    Notifications(true, true, false, true, true, true, false),
    WorkingHours("09:00", "17:00", "America/New_York"))

  function Flag(n: Notifications, f: NotificationFlag): bool
  {
    match f
    case TaskReminders => n.taskReminders
    case AISuggestions => n.aiSuggestions
    case TeamUpdates => n.teamUpdates
    case WeeklyReports => n.weeklyReports
    case EmailDigest => n.emailDigest
    case PushNotifications => n.pushNotifications
    case SoundEnabled => n.soundEnabled
  }

  /** The notification record with one flag set. */
  function WithFlag(n: Notifications, f: NotificationFlag, value: bool): (m: Notifications)
    ensures Flag(m, f) == value
    ensures forall g :: g != f ==> Flag(m, g) == Flag(n, g)
  {
    match f
    case TaskReminders => n.(taskReminders := value)
    case AISuggestions => n.(aiSuggestions := value)
    case TeamUpdates => n.(teamUpdates := value)
    case WeeklyReports => n.(weeklyReports := value)
    case EmailDigest => n.(emailDigest := value)
    case PushNotifications => n.(pushNotifications := value)
    case SoundEnabled => n.(soundEnabled := value)
  }

  function Field(p: Preferences, f: PreferenceField): string
  {
    match f
    case Theme => p.theme
    case Language => p.language
    case WorkingStart => p.workingHours.start
    case WorkingEnd => p.workingHours.end
    case WorkingTimezone => p.workingHours.timezone
  }

  /** `handlePreferenceChange`: a scalar category is replaced; a field of
      `workingHours` is set and the other two are kept. The notification
      flags never change here. */
  function WithField(p: Preferences, f: PreferenceField, value: string): (q: Preferences)
    ensures Field(q, f) == value
    ensures forall g :: g != f ==> Field(q, g) == Field(p, g)
    ensures q.notifications == p.notifications
  {
    match f
    case Theme => p.(theme := value)
    case Language => p.(language := value)
    case WorkingStart => p.(workingHours := p.workingHours.(start := value))
    case WorkingEnd => p.(workingHours := p.workingHours.(end := value))
    case WorkingTimezone => p.(workingHours := p.workingHours.(timezone := value))
  }

  /** Setting a field back to the value it had changes nothing. */
  lemma WithFieldOwnValue(p: Preferences, f: PreferenceField)
    ensures WithField(p, f, Field(p, f)) == p
  {
  }

  /** The save button is disabled while nothing has changed. */
  predicate SaveDisabled(hasChanges: bool)
  {
    !hasChanges
  }

  class PreferencesSection {
    var preferences: Preferences
    var hasChanges: bool

    constructor ()
      ensures preferences == DefaultPreferences && !hasChanges
      ensures SaveDisabled(hasChanges)
    {
      preferences := DefaultPreferences;
      hasChanges := false;
    }

    method PreferenceChange(field: PreferenceField, value: string)
      modifies this
      ensures preferences == WithField(old(preferences), field, value) && hasChanges
      ensures !SaveDisabled(hasChanges)
    {
      preferences := WithField(preferences, field, value);
      hasChanges := true;
    }

    /** `handleNotificationChange`: exactly one flag changes. */
    method NotificationChange(flag: NotificationFlag, value: bool)
      modifies this
      ensures preferences == old(preferences).(notifications := WithFlag(old(preferences).notifications, flag, value))
      ensures hasChanges
      ensures !SaveDisabled(hasChanges)
    {
      preferences := preferences.(notifications := WithFlag(preferences.notifications, flag, value));
      hasChanges := true;
    }

    /** `handleSavePreferences`: the record is kept; only the mark clears. */
    method SavePreferences()
      modifies this
      ensures preferences == old(preferences) && !hasChanges
      ensures SaveDisabled(hasChanges)
    {
      hasChanges := false;
    }

    /** `resetToDefaults`: the initial record comes back, and the section
        counts as changed (so save stays enabled). */
    method ResetToDefaults()
      modifies this
      ensures preferences == DefaultPreferences && hasChanges
      ensures !SaveDisabled(hasChanges)
    {
      preferences := DefaultPreferences;
      hasChanges := true;
    }
  }
}
