/**
 * The validated settings record and its clamping rules (models/settings.model.ts).
 * Setting values are JavaScript numbers; they are modelled as mathematical reals,
 * so that "no rounding" can be stated (floating-point effects are not modelled).
 */
module SettingsModel {
  import opened Wrappers

  datatype PomodoroSettings = PomodoroSettings(
    workTime: real,
    shortBreakTime: real,
    longBreakTime: real,
    cyclesBeforeLongBreak: real,
    soundEnabled: bool,
    soundVolume: real,
    notificationsEnabled: bool)

  /** `Partial<PomodoroSettings>`: every field may be absent. */
  datatype PartialSettings = PartialSettings(
    workTime: Option<real>,
    shortBreakTime: Option<real>,
    longBreakTime: Option<real>,
    cyclesBeforeLongBreak: Option<real>,
    soundEnabled: Option<bool>,
    soundVolume: Option<real>,
    notificationsEnabled: Option<bool>)

  /** The keys of `SETTINGS_LIMITS`. */
  datatype LimitedKey = WorkTime | ShortBreakTime | LongBreakTime | CyclesBeforeLongBreak | SoundVolume

  datatype Limits = Limits(min: real, max: real)

  const DefaultSettings := PomodoroSettings(25.0, 5.0, 15.0, 4.0, true, 70.0, true)

  /** `SETTINGS_LIMITS[key]` */
  function LimitsOf(key: LimitedKey): (l: Limits)
    ensures 0.0 <= l.min < l.max
  {
    match key
    case WorkTime => Limits(1.0, 60.0)
    case ShortBreakTime => Limits(1.0, 30.0)
    case LongBreakTime => Limits(1.0, 60.0)
    case CyclesBeforeLongBreak => Limits(1.0, 10.0)
    case SoundVolume => Limits(0.0, 100.0)
  }

  function Max(a: real, b: real): real { if a >= b then a else b }
  function Min(a: real, b: real): real { if a <= b then a else b }

  /** `validateSettingValue`: clamp `value` into the key's limits, without rounding. */
  function ValidateSettingValue(key: LimitedKey, value: real): (r: real)
    ensures LimitsOf(key).min <= r <= LimitsOf(key).max
    ensures LimitsOf(key).min <= value <= LimitsOf(key).max ==> r == value
    ensures value < LimitsOf(key).min ==> r == LimitsOf(key).min
    ensures value > LimitsOf(key).max ==> r == LimitsOf(key).max
  {
    var l := LimitsOf(key);
    Max(l.min, Min(l.max, value))
  }

  /** Clamping a value that is already clamped returns it unchanged. */
  lemma ValidateIdempotent(key: LimitedKey, value: real)
    ensures ValidateSettingValue(key, ValidateSettingValue(key, value)) == ValidateSettingValue(key, value)
  {
  }

  /** Clamping preserves the order of values. */
  lemma ValidateMonotone(key: LimitedKey, v1: real, v2: real)
    requires v1 <= v2
    ensures ValidateSettingValue(key, v1) <= ValidateSettingValue(key, v2)
  {
  }

  /** Clamp an optional field only when it is present. */
  function ValidateField(key: LimitedKey, value: Option<real>): (r: Option<real>)
    ensures r.None? <==> value.None?
    ensures value.Some? ==> r.value == ValidateSettingValue(key, value.value)
  {
    match value
    case None => None
    case Some(v) => Some(ValidateSettingValue(key, v))
  }

  /** `validateSettings`: a copy with the five limited fields clamped where present. */
  function ValidateSettings(settings: PartialSettings): (r: PartialSettings)
    ensures r.workTime == ValidateField(WorkTime, settings.workTime)
    ensures r.shortBreakTime == ValidateField(ShortBreakTime, settings.shortBreakTime)
    ensures r.longBreakTime == ValidateField(LongBreakTime, settings.longBreakTime)
    ensures r.cyclesBeforeLongBreak == ValidateField(CyclesBeforeLongBreak, settings.cyclesBeforeLongBreak)
    ensures r.soundVolume == ValidateField(SoundVolume, settings.soundVolume)
    ensures r.soundEnabled == settings.soundEnabled
    ensures r.notificationsEnabled == settings.notificationsEnabled
    ensures r.cyclesBeforeLongBreak.Some? ==> r.cyclesBeforeLongBreak.value >= 1.0
    ensures r.soundVolume.Some? ==> 0.0 <= r.soundVolume.value <= 100.0
  {
    settings.(
      workTime := ValidateField(WorkTime, settings.workTime),
      shortBreakTime := ValidateField(ShortBreakTime, settings.shortBreakTime),
      longBreakTime := ValidateField(LongBreakTime, settings.longBreakTime),
      cyclesBeforeLongBreak := ValidateField(CyclesBeforeLongBreak, settings.cyclesBeforeLongBreak),
      soundVolume := ValidateField(SoundVolume, settings.soundVolume))
  }

  /** A complete settings record seen as a partial one with every field present. */
  function ToPartial(s: PomodoroSettings): (p: PartialSettings)
    ensures p.workTime == Some(s.workTime) && p.shortBreakTime == Some(s.shortBreakTime)
    ensures p.longBreakTime == Some(s.longBreakTime) && p.cyclesBeforeLongBreak == Some(s.cyclesBeforeLongBreak)
    ensures p.soundEnabled == Some(s.soundEnabled) && p.soundVolume == Some(s.soundVolume)
    ensures p.notificationsEnabled == Some(s.notificationsEnabled)
  {
    PartialSettings(Some(s.workTime), Some(s.shortBreakTime), Some(s.longBreakTime),
      Some(s.cyclesBeforeLongBreak), Some(s.soundEnabled), Some(s.soundVolume), Some(s.notificationsEnabled))
  }

  /** Every present limited field lies within its limits. */
  predicate WithinLimits(p: PartialSettings)
  {
    && (p.workTime.Some? ==> LimitsOf(WorkTime).min <= p.workTime.value <= LimitsOf(WorkTime).max)
    && (p.shortBreakTime.Some? ==> LimitsOf(ShortBreakTime).min <= p.shortBreakTime.value <= LimitsOf(ShortBreakTime).max)
    && (p.longBreakTime.Some? ==> LimitsOf(LongBreakTime).min <= p.longBreakTime.value <= LimitsOf(LongBreakTime).max)
    && (p.cyclesBeforeLongBreak.Some? ==>
          LimitsOf(CyclesBeforeLongBreak).min <= p.cyclesBeforeLongBreak.value <= LimitsOf(CyclesBeforeLongBreak).max)
    && (p.soundVolume.Some? ==> LimitsOf(SoundVolume).min <= p.soundVolume.value <= LimitsOf(SoundVolume).max)
  }

  /** Validation always produces a record within limits, and fixes exactly the records already within them. */
  lemma ValidateSettingsFixesExactlyValid(p: PartialSettings)
    ensures WithinLimits(ValidateSettings(p))
    ensures ValidateSettings(p) == p <==> WithinLimits(p)
  {
  }

  /** The defaults satisfy every limit, so validating them changes nothing. */
  lemma DefaultsAreValid()
    ensures WithinLimits(ToPartial(DefaultSettings))
    ensures ValidateSettings(ToPartial(DefaultSettings)) == ToPartial(DefaultSettings)
  {
    ValidateSettingsFixesExactlyValid(ToPartial(DefaultSettings));
  }
}
