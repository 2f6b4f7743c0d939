/** The AI settings of the profile page: a nested settings record edited
    through change handlers that mark it dirty, and a save that only clears
    the mark. */
module AISettingsSection {
  import opened Common

  datatype SharingFlag = ImproveRecommendations | AnonymousUsage | TaskPatterns | ProductivityInsights
  datatype CategorizationFlag = AutoCategories | SmartPriority | DeadlinePredict | TimeEstimation
  datatype GoalField = DailyTasks | WeeklyGoals | FocusTime

  /** The scalar categories `handleSettingChange` is called with. */
  datatype ScalarSetting = AssistantBehavior | SuggestionFrequency | WorkingStyle

  datatype DataSharing = DataSharing(improveRecommendations: bool, anonymousUsage: bool,
                                     taskPatterns: bool, productivityInsights: bool)
  datatype Categorization = Categorization(autoCategories: bool, smartPriority: bool,
                                           deadlinePredict: bool, timeEstimation: bool)
  datatype Goals = Goals(dailyTasks: int, weeklyGoals: int, focusTime: int)

  datatype AISettings = AISettings(
    assistantBehavior: string,
    suggestionFrequency: string,
    dataSharing: DataSharing,
    productivityGoals: Goals,
    taskCategorization: Categorization,
    workingStyle: string)

  const InitialSettings: AISettings := AISettings("balanced", "moderate",
    DataSharing(true, true, false, true), Goals(8, 5, 4),
    Categorization(true, true, true, false), "focused")

  function Sharing(d: DataSharing, f: SharingFlag): bool
  {
    match f
    case ImproveRecommendations => d.improveRecommendations
    case AnonymousUsage => d.anonymousUsage
    case TaskPatterns => d.taskPatterns
    case ProductivityInsights => d.productivityInsights
  }

  /** The data-sharing record with one flag set. */
  function WithSharing(d: DataSharing, f: SharingFlag, value: bool): (e: DataSharing)
    ensures Sharing(e, f) == value
    ensures forall g :: g != f ==> Sharing(e, g) == Sharing(d, g)
  {
    match f
    case ImproveRecommendations => d.(improveRecommendations := value)
    case AnonymousUsage => d.(anonymousUsage := value)
    case TaskPatterns => d.(taskPatterns := value)
    case ProductivityInsights => d.(productivityInsights := value)
  }

  function Categorized(c: Categorization, f: CategorizationFlag): bool
  {
    match f
    case AutoCategories => c.autoCategories
    case SmartPriority => c.smartPriority
    case DeadlinePredict => c.deadlinePredict
    case TimeEstimation => c.timeEstimation
  }

  /** The categorization record with one flag set. */
  function WithCategorization(c: Categorization, f: CategorizationFlag, value: bool): (e: Categorization)
    ensures Categorized(e, f) == value
    ensures forall g :: g != f ==> Categorized(e, g) == Categorized(c, g)
  {
    match f
    case AutoCategories => c.(autoCategories := value)
    case SmartPriority => c.(smartPriority := value)
    case DeadlinePredict => c.(deadlinePredict := value)
    case TimeEstimation => c.(timeEstimation := value)
  }

  function Goal(g: Goals, f: GoalField): int
  {
    match f
    case DailyTasks => g.dailyTasks
    case WeeklyGoals => g.weeklyGoals
    case FocusTime => g.focusTime
  }

  /** The goals record with one goal set. */
  function WithGoal(g: Goals, f: GoalField, value: int): (e: Goals)
    ensures Goal(e, f) == value
    ensures forall h :: h != f ==> Goal(e, h) == Goal(g, h)
  {
    match f
    case DailyTasks => g.(dailyTasks := value)
    case WeeklyGoals => g.(weeklyGoals := value)
    case FocusTime => g.(focusTime := value)
  }

  function Scalar(s: AISettings, f: ScalarSetting): string
  {
    match f
    case AssistantBehavior => s.assistantBehavior
    case SuggestionFrequency => s.suggestionFrequency
    case WorkingStyle => s.workingStyle
  }

  /** `handleSettingChange` on a scalar category: the value replaces it and
      the rest of the record stays. */
  function WithScalar(s: AISettings, f: ScalarSetting, value: string): (e: AISettings)
    ensures Scalar(e, f) == value
    ensures forall g :: g != f ==> Scalar(e, g) == Scalar(s, g)
    ensures e.dataSharing == s.dataSharing && e.productivityGoals == s.productivityGoals
    ensures e.taskCategorization == s.taskCategorization
  {
    match f
    case AssistantBehavior => s.(assistantBehavior := value)
    case SuggestionFrequency => s.(suggestionFrequency := value)
    case WorkingStyle => s.(workingStyle := value)
  }

  // ---------------------------------------------------------------------
  // parseInt(value) || 0
  // ---------------------------------------------------------------------

  predicate IsHexDigit(c: char)
  {
    IsDigit(c) || 'a' <= c <= 'f' || 'A' <= c <= 'F'
  }

  function HexDigitValue(c: char): nat
    requires IsHexDigit(c)
  {
    if IsDigit(c) then c as int - '0' as int
    else if 'a' <= c <= 'f' then c as int - 'a' as int + 10
    else c as int - 'A' as int + 10
  }

  /** The longest prefix of `s` whose characters all satisfy the digit test. */
  function LeadingDigits(s: string, hex: bool): (r: string)
    ensures |r| <= |s| && r == s[..|r|]
    ensures forall i :: 0 <= i < |r| ==> (if hex then IsHexDigit(r[i]) else IsDigit(r[i]))
    ensures |r| < |s| ==> !(if hex then IsHexDigit(s[|r|]) else IsDigit(s[|r|]))
  {
    if s != [] && (if hex then IsHexDigit(s[0]) else IsDigit(s[0])) then [s[0]] + LeadingDigits(s[1..], hex)
    else []
  }

  /** The value of a string of hexadecimal digits, most significant first;
      decimal digits are read by `DigitsValue`. */
  function HexDigitsValue(s: string): nat
    requires forall i :: 0 <= i < |s| ==> IsHexDigit(s[i])
  {
    if s == [] then 0
    else HexDigitsValue(s[..|s| - 1]) * 16 + HexDigitValue(s[|s| - 1])
  }

  /** Whether the text after the sign has a "0x" or "0X" prefix. */
  predicate HexPrefixed(u: string)
  {
    |u| >= 2 && u[0] == '0' && (u[1] == 'x' || u[1] == 'X')
  }

  /** The value of the digits at the start of the unsigned text. */
  function Magnitude(u: string): nat
  {
    if HexPrefixed(u) then HexDigitsValue(LeadingDigits(u[2..], true))
    else DigitsValue(LeadingDigits(u, false))
  }

  /** `parseInt(value) || 0`: leading whitespace is skipped, then an optional
      sign, then a "0x"/"0X" prefix selects hexadecimal; the digits run to the
      first character that is not one. No digits at all is NaN, which, like
      zero, becomes 0. */
  function ParseIntOrZero(value: string): int
  {
    var t := TrimStart(value);
    if t != [] && t[0] == '-' then -(Magnitude(t[1..]) as int)
    else if t != [] && t[0] == '+' then Magnitude(t[1..])
    else Magnitude(t)
  }

  /** Decimal digits are read as their value. */
  lemma MagnitudeOfDigits(s: string)
    requires forall i :: 0 <= i < |s| ==> IsDigit(s[i])
    ensures Magnitude(s) == DigitsValue(s)
  {
    assert !HexPrefixed(s) by {
      if |s| >= 2 { assert IsDigit(s[1]); }
    }
    LeadingDigitsWhole(s);
  }

  /** Text that starts with neither a space nor a sign is read from its start. */
  lemma ParseUnsigned(s: string)
    requires s != [] && !IsSpace(s[0]) && s[0] != '-' && s[0] != '+'
    ensures ParseIntOrZero(s) == Magnitude(s)
  {
    TrimStartOfNonSpace(s);
  }

  /** A minus sign in front negates what follows it. */
  lemma ParseNegative(s: string)
    ensures ParseIntOrZero("-" + s) == -(Magnitude(s) as int)
  {
    var m := "-" + s;
    assert m[0] == '-' && m[1..] == s;
    TrimStartOfNonSpace(m);
  }

  /** Decimal digits, with or without a minus sign, are read as their value. */
  lemma ParseDigits(s: string)
    requires s != [] && forall i :: 0 <= i < |s| ==> IsDigit(s[i])
    ensures ParseIntOrZero(s) == DigitsValue(s)
    ensures ParseIntOrZero("-" + s) == -(DigitsValue(s) as int)
  {
    MagnitudeOfDigits(s);
    assert IsDigit(s[0]);
    ParseUnsigned(s);
    ParseNegative(s);
  }

  /** A typed number is stored as that number, and so is its negation. */
  lemma ParseIntRoundTrip(n: nat)
    ensures ParseIntOrZero(NatToString(n)) == n
    ensures ParseIntOrZero("-" + NatToString(n)) == -(n as int)
  {
    NatToStringRoundTrip(n);
    ParseDigits(NatToString(n));
  }

  lemma {:induction false} LeadingDigitsWhole(s: string)
    requires forall i :: 0 <= i < |s| ==> IsDigit(s[i])
    ensures LeadingDigits(s, false) == s
  {
    if s != [] {
      LeadingDigitsWhole(s[1..]);
    }
  }

  /** Text that does not start with a digit (after spaces and a sign) is 0. */
  lemma NoDigitsIsZero(value: string)
    requires var t := TrimStart(value);
      var u := if t != [] && (t[0] == '-' || t[0] == '+') then t[1..] else t;
      u == [] || !IsDigit(u[0])
    ensures ParseIntOrZero(value) == 0
  {
  }

  /** The save button is disabled while nothing has changed. */
  predicate SaveDisabled(hasChanges: bool)
  {
    !hasChanges
  }

  class AISettingsSection {
    var aiSettings: AISettings
    var hasChanges: bool

    constructor ()
      ensures aiSettings == InitialSettings && !hasChanges
      ensures SaveDisabled(hasChanges)
    {
      aiSettings := InitialSettings;
      hasChanges := false;
    }

    /** `handleSettingChange(category, null, value)` for a scalar category. */
    method SettingChange(category: ScalarSetting, value: string)
      modifies this
      ensures aiSettings == WithScalar(old(aiSettings), category, value) && hasChanges
      ensures !SaveDisabled(hasChanges)
    {
      aiSettings := WithScalar(aiSettings, category, value);
      hasChanges := true;
    }

    /** `handleDataSharingChange`: one flag of the data-sharing record. */
    method DataSharingChange(field: SharingFlag, value: bool)
      modifies this
      ensures aiSettings == old(aiSettings).(dataSharing := WithSharing(old(aiSettings).dataSharing, field, value))
      ensures hasChanges
      ensures !SaveDisabled(hasChanges)
    {
      aiSettings := aiSettings.(dataSharing := WithSharing(aiSettings.dataSharing, field, value));
      hasChanges := true;
    }

    /** `handleCategorizationChange`: one flag of the categorization record. */
    method CategorizationChange(field: CategorizationFlag, value: bool)
      modifies this
      ensures aiSettings == old(aiSettings).(taskCategorization := WithCategorization(old(aiSettings).taskCategorization, field, value))
      ensures hasChanges
      ensures !SaveDisabled(hasChanges)
    {
      aiSettings := aiSettings.(taskCategorization := WithCategorization(aiSettings.taskCategorization, field, value));
      hasChanges := true;
    }

    /** `handleGoalChange`: the parsed text becomes the goal; the input's
        min and max are not applied. */
    method GoalChange(field: GoalField, value: string)
      modifies this
      ensures aiSettings == old(aiSettings).(productivityGoals := WithGoal(old(aiSettings).productivityGoals, field, ParseIntOrZero(value)))
      ensures hasChanges
      ensures !SaveDisabled(hasChanges)
    {
      aiSettings := aiSettings.(productivityGoals := WithGoal(aiSettings.productivityGoals, field, ParseIntOrZero(value)));
      hasChanges := true;
    }

    /** `handleSaveSettings`: the settings stay as they are; only the mark clears. */
    method SaveSettings()
      modifies this
      ensures aiSettings == old(aiSettings) && !hasChanges
      ensures SaveDisabled(hasChanges)
    {
      hasChanges := false;
    }
  }
}
