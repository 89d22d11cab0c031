/**
 * The timer's phase and run state, and the display information attached to each
 * phase (models/timer.model.ts).
 */
module TimerModel {

  /** `'work' | 'shortBreak' | 'longBreak'` */
  datatype TimerMode = Work | ShortBreak | LongBreak

  /** `'idle' | 'running' | 'paused'` */
  datatype TimerState = Idle | Running | Paused

  /** The `label` entry of `TIMER_MODE_INFO`. */
  function ModeLabel(mode: TimerMode): string
  {
    match mode
    case Work => "Tempo de Foco"
    case ShortBreak => "Pausa Curta"
    case LongBreak => "Pausa Longa"
  }

  /** The `emoji` entry of `TIMER_MODE_INFO`. */
  function ModeEmojiInfo(mode: TimerMode): string
  {
    match mode
    case Work => "\U{1F345}"
    case ShortBreak => "\U{2615}"
    case LongBreak => "\U{1F334}"
  }
}
