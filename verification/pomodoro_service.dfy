/**
 * The Pomodoro engine (services/pomodoro.service.ts): a state machine over the
 * current phase, run state, remaining seconds, completed work cycles and the
 * newest-first session log. The one-second `interval` subscription is the
 * boolean `subscribed`; each delivered interval event is an explicit `Tick`
 * call; `Date.now()` is the parameter `now`; the `timerComplete$` subject is
 * the ghost log `emitted`; local storage is the pair of `saved…` fields.
 */
module PomodoroEngine {
  import opened Wrappers
  import opened TimerModel
  import opened SessionModel

  /** The service's own settings record (minutes and cycle length), not clamped by this service. */
  datatype Settings = Settings(workTime: int, shortBreakTime: int, longBreakTime: int, cyclesBeforeLongBreak: int)

  /** `Partial<PomodoroSettings>` */
  datatype SettingsPatch = SettingsPatch(
    workTime: Option<int>, shortBreakTime: Option<int>, longBreakTime: Option<int>, cyclesBeforeLongBreak: Option<int>)

  const DefaultSettings := Settings(25, 5, 15, 4)

  /** How many sessions `saveSessions` keeps in storage. */
  const MaxStoredSessions := 100

  /** `{ ...current, ...patch }`: every present field of the patch wins, every absent one keeps its value. */
  function Merge(current: Settings, patch: SettingsPatch): (r: Settings)
    ensures r.workTime == if patch.workTime.Some? then patch.workTime.value else current.workTime
    ensures r.shortBreakTime == if patch.shortBreakTime.Some? then patch.shortBreakTime.value else current.shortBreakTime
    ensures r.longBreakTime == if patch.longBreakTime.Some? then patch.longBreakTime.value else current.longBreakTime
    ensures r.cyclesBeforeLongBreak ==
              if patch.cyclesBeforeLongBreak.Some? then patch.cyclesBeforeLongBreak.value else current.cyclesBeforeLongBreak
  {
    Settings(
      patch.workTime.GetOr(current.workTime),
      patch.shortBreakTime.GetOr(current.shortBreakTime),
      patch.longBreakTime.GetOr(current.longBreakTime),
      patch.cyclesBeforeLongBreak.GetOr(current.cyclesBeforeLongBreak))
  }

  /** Applying the same patch twice is applying it once. */
  lemma MergeIdempotent(current: Settings, patch: SettingsPatch)
    ensures Merge(Merge(current, patch), patch) == Merge(current, patch)
  {
  }

  /** `getTotalTime(mode)`: the phase length in seconds. */
  function TotalTime(settings: Settings, mode: TimerMode): (seconds: int)
    ensures mode == Work ==> seconds == settings.workTime * 60
    ensures mode == ShortBreak ==> seconds == settings.shortBreakTime * 60
    ensures mode == LongBreak ==> seconds == settings.longBreakTime * 60
    ensures seconds % 60 == 0
  {
    match mode
    case Work => settings.workTime * 60
    case ShortBreak => settings.shortBreakTime * 60
    case LongBreak => settings.longBreakTime * 60
  }

  function Abs(x: int): (r: int)
    ensures r >= 0 && (r == x || r == -x)
  {
    if x < 0 then -x else x
  }

  /**
   * JavaScript's `a % b` on integers: the sign follows the dividend, and a zero
   * divisor gives `NaN` (here `None`).
   */
  function JsRemainder(a: int, b: int): (r: Option<int>)
    ensures r.None? <==> b == 0
    ensures r.Some? && a >= 0 ==> r.value == a % Abs(b) && 0 <= r.value < Abs(b)
    ensures r.Some? && a < 0 ==> -Abs(b) < r.value <= 0 && (a - r.value) % Abs(b) == 0
  {
    if b == 0 then None
    else if a >= 0 then Some(a % Abs(b))
    else
      TruncatedRemainderDivides(-a, Abs(b));
      Some(-((-a) % Abs(b)))
  }

  /** Negating the remainder of `n` leaves a multiple of `m` behind, as truncated division does. */
  lemma TruncatedRemainderDivides(n: int, m: int)
    requires n >= 0 && m > 0
    ensures (-n + n % m) % m == 0
  {
    var q := n / m;
    assert -n + n % m == (-q) * m;
    MultipleHasNoRemainder(-q, m);
  }

  lemma MultipleHasNoRemainder(k: int, m: int)
    requires m > 0
    ensures (k * m) % m == 0
  {
    var q, r := (k * m) / m, (k * m) % m;
    assert (k - q) * m == r;
    if k - q >= 1 {
      ProductAtLeastFactor(k - q, m);
    } else if k - q <= -1 {
      ProductAtLeastFactor(q - k, m);
    }
  }

  lemma {:induction false} ProductAtLeastFactor(d: int, m: int)
    requires d >= 1 && m > 0
    ensures d * m >= m
    decreases d
  {
    if d > 1 {
      ProductAtLeastFactor(d - 1, m);
      assert d * m == (d - 1) * m + m;
    }
  }

  /**
   * The phase `nextMode` moves to, given the (already updated) cycle count:
   * after work a long break when the count is a positive multiple of the
   * cycle length, otherwise a short break; after any break, work.
   */
  function FollowingMode(mode: TimerMode, cycles: nat, cyclesBeforeLongBreak: int): (next: TimerMode)
    ensures mode != Work ==> next == Work
    ensures mode == Work ==> next != Work
    ensures mode == Work ==>
              (next == LongBreak <==> cycles > 0 && cyclesBeforeLongBreak != 0 && cycles % Abs(cyclesBeforeLongBreak) == 0)
  {
    if mode == Work then
      if JsRemainder(cycles, cyclesBeforeLongBreak) == Some(0) && cycles > 0 then LongBreak else ShortBreak
    else Work
  }

  /** The result of one delivered tick: the new remaining time, or `None` when the phase completes. */
  function TickStep(remaining: int): (r: Option<int>)
    ensures r.None? <==> remaining <= 0
    ensures r.Some? ==> r.value == remaining - 1 >= 0
  {
    if remaining <= 0 then None else Some(remaining - 1)
  }

  /** The remaining time after `n` ticks, or `None` once one of them has completed the phase. */
  function AfterTicks(remaining: int, n: nat): Option<int>
  {
    if n == 0 then Some(remaining)
    else match TickStep(remaining)
      case None => None
      case Some(next) => AfterTicks(next, n - 1)
  }

  /**
   * Ticks are counted, not timed: from `t >= 0` seconds the `k`-th tick leaves
   * `t - k` (never negative) for `k <= t`, and tick `t + 1` completes the phase.
   */
  lemma {:induction false} CompletesOnTickAfterCountdown(t: nat, k: nat)
    requires k <= t
    ensures AfterTicks(t, k) == Some(t - k)
    ensures AfterTicks(t, t + 1) == None
  {
    if k > 0 {
      CompletesOnTickAfterCountdown(t - 1, k - 1);
    }
    if t > 0 {
      CompletesOnTickAfterCountdown(t - 1, 0);
    }
  }

  /** The phase and cycle count after `onTimerComplete` (cycle increment first, then `nextMode`). */
  function CompletionStep(mode: TimerMode, cycles: nat, cyclesBeforeLongBreak: int): (TimerMode, nat)
  {
    var counted := if mode == Work then cycles + 1 else cycles;
    (FollowingMode(mode, counted, cyclesBeforeLongBreak), counted)
  }

  /** The phase and cycle count after `n` natural completions starting from `(mode, cycles)`. */
  function AfterCompletions(mode: TimerMode, cycles: nat, k: int, n: nat): (TimerMode, nat)
    decreases n
  {
    if n == 0 then (mode, cycles)
    else
      var (m, c) := CompletionStep(mode, cycles, k);
      AfterCompletions(m, c, k, n - 1)
  }

  /**
   * Phase sequencing from a fresh start: after `2n` completions the timer is
   * back at work with `n` cycles counted; after the next one it is in a long
   * break exactly when `n + 1` is a multiple of the cycle length.
   */
  lemma {:induction false} CompletionSequence(k: int, n: nat)
    requires k >= 1
    ensures AfterCompletions(Work, 0, k, 2 * n) == (Work, n)
    ensures AfterCompletions(Work, 0, k, 2 * n + 1) == (if (n + 1) % k == 0 then LongBreak else ShortBreak, n + 1)
  {
    if n > 0 {
      CompletionSequence(k, n - 1);
      ShiftCompletions(Work, 0, k, 2 * (n - 1) + 1, 1);
    }
    ShiftCompletions(Work, 0, k, 2 * n, 1);
  }

  /**
   * `skipToNext` reuses the cycle count: after the k-th work phase completes
   * into a long break, skipping that break and then skipping the following
   * work phase lands in a long break again.
   */
  lemma SkipsAfterLongBreakRepeatIt(k: int)
    requires k >= 1
    ensures AfterCompletions(Work, 0, k, 2 * k - 1) == (LongBreak, k)
    ensures FollowingMode(FollowingMode(LongBreak, k, k), k, k) == LongBreak
  {
    CompletionSequence(k, k - 1);
  }

  /** Completions compose: `a + b` completions are `a` completions followed by `b`. */
  lemma {:induction false} ShiftCompletions(mode: TimerMode, cycles: nat, k: int, a: nat, b: nat)
    ensures AfterCompletions(mode, cycles, k, a + b) ==
            var (m, c) := AfterCompletions(mode, cycles, k, a); AfterCompletions(m, c, k, b)
    decreases a
  {
    if a > 0 {
      var (m, c) := CompletionStep(mode, cycles, k);
      ShiftCompletions(m, c, k, a - 1, b);
    }
  }

  /** `minutes`: `Math.floor(timeRemaining / 60)`. */
  function Minutes(timeRemaining: int): (m: int)
    ensures m * 60 <= timeRemaining < m * 60 + 60
  {
    timeRemaining / 60
  }

  /** `seconds`: `timeRemaining % 60` with JavaScript's remainder. */
  function Seconds(timeRemaining: int): (sec: int)
    ensures timeRemaining >= 0 ==> 0 <= sec < 60
    ensures timeRemaining < 0 ==> -60 < sec <= 0
    ensures (timeRemaining - sec) % 60 == 0
  {
    JsRemainder(timeRemaining, 60).value
  }

  /**
   * For a non-negative remaining time the display splits it exactly into whole
   * minutes and 0..59 seconds; a negative time shows non-positive seconds.
   */
  lemma MinutesSecondsSplit(timeRemaining: int)
    ensures timeRemaining >= 0 ==>
              0 <= Seconds(timeRemaining) < 60 && Minutes(timeRemaining) * 60 + Seconds(timeRemaining) == timeRemaining
    ensures timeRemaining < 0 ==> -60 < Seconds(timeRemaining) <= 0 && Minutes(timeRemaining) < 0
  {
  }

  /** `progress`: the elapsed share of the phase in percent, for a non-zero total. */
  function Progress(total: int, remaining: int): (p: real)
    requires total != 0
    ensures remaining == total ==> p == 0.0
    ensures remaining == 0 ==> p == 100.0
    ensures 0 < total && 0 <= remaining <= total ==> 0.0 <= p <= 100.0
  {
    var elapsed := (total - remaining) as real;
    assert 0 < total && 0 <= remaining <= total ==> elapsed <= total as real;
    elapsed / total as real * 100.0
  }

  /** `sessions.slice(0, 100)`: what `saveSessions` writes. */
  function StoredSlice(sessions: seq<PomodoroSession>): (r: seq<PomodoroSession>)
    ensures |r| == if |sessions| <= MaxStoredSessions then |sessions| else MaxStoredSessions
    ensures forall i :: 0 <= i < |r| ==> r[i] == sessions[i]
  {
    if |sessions| <= MaxStoredSessions then sessions else sessions[..MaxStoredSessions]
  }

  /** `loadSettings`: stored fields over the defaults; the defaults when nothing usable is stored. */
  function LoadSettings(hasStorage: bool, stored: Option<SettingsPatch>): (s: Settings)
    ensures !hasStorage || stored.None? ==> s == DefaultSettings
    ensures hasStorage && stored.Some? ==> s == Merge(DefaultSettings, stored.value)
  {
    if hasStorage && stored.Some? then Merge(DefaultSettings, stored.value) else DefaultSettings
  }

  class PomodoroService {
    var settings: Settings
    var mode: TimerMode
    var state: TimerState
    var timeRemaining: int
    var completedCycles: nat
    var sessions: seq<PomodoroSession>
    /** Whether `timerSubscription` is set. */
    var subscribed: bool
    /** Whether `window`/`localStorage` exist. */
    const hasStorage: bool
    /** The settings and sessions last written to storage by the persisting effects. */
    var savedSettings: Option<Settings>
    var savedSessions: Option<seq<PomodoroSession>>
    /** Every phase emitted on `timerComplete$`, oldest first. */
    ghost var emitted: seq<TimerMode>

    /**
     * A tick subscription exists exactly while running, and an idle timer
     * always shows the full length of its phase.
     */
    ghost predicate Valid()
      reads this
    {
      && (subscribed <==> state == Running)
      && (state == Idle ==> timeRemaining == TotalTime(settings, mode))
    }

    /** Load settings and sessions (`None` for missing or unparsable entries) and show the full work phase. */
    constructor (hasStorage: bool, storedSettings: Option<SettingsPatch>, storedSessions: Option<seq<PomodoroSession>>)
      ensures Valid()
      ensures this.hasStorage == hasStorage
      ensures settings == LoadSettings(hasStorage, storedSettings)
      ensures sessions == if hasStorage && storedSessions.Some? then storedSessions.value else []
      ensures mode == Work && state == Idle && completedCycles == 0 && !subscribed
      ensures timeRemaining == TotalTime(settings, Work)
      ensures savedSettings.None? && savedSessions.None? && emitted == []
    {
      var loaded := LoadSettings(hasStorage, storedSettings);
      this.hasStorage := hasStorage;
      settings := loaded;
      mode := Work;
      state := Idle;
      completedCycles := 0;
      sessions := if hasStorage && storedSessions.Some? then storedSessions.value else [];
      subscribed := false;
      savedSettings := None;
      savedSessions := None;
      emitted := [];
      timeRemaining := TotalTime(loaded, Work);
    }

    /**
     * `start`: nothing while running; otherwise run and subscribe. The
     * "reload when idle" test inside runs after the state is already
     * `running`, so the remaining time is never reloaded; `Valid()` shows the
     * idle time is already the full phase.
     */
    method Start()
      requires Valid()
      modifies this
      ensures Valid()
      ensures old(state) == Running ==> unchanged(this)
      ensures old(state) != Running ==> state == Running && subscribed
      ensures timeRemaining == old(timeRemaining)
      ensures old(state) == Idle ==> timeRemaining == TotalTime(settings, mode)
      ensures settings == old(settings) && mode == old(mode) && completedCycles == old(completedCycles)
      ensures sessions == old(sessions) && emitted == old(emitted)
      ensures savedSettings == old(savedSettings) && savedSessions == old(savedSessions)
    {
      if state == Running {
        return;
      }
      state := Running;
      // The source's `if (state === 'idle')` reload test stands here; the state
      // was set to running just above, so the test always fails and the reload
      // never happens.
      subscribed := true;
    }

    /** `pause`: only a running timer pauses; the remaining time is kept. */
    method Pause()
      requires Valid()
      modifies this
      ensures Valid()
      ensures old(state) != Running ==> unchanged(this)
      ensures old(state) == Running ==> state == Paused && !subscribed
      ensures timeRemaining == old(timeRemaining)
      ensures settings == old(settings) && mode == old(mode) && completedCycles == old(completedCycles)
      ensures sessions == old(sessions) && emitted == old(emitted)
      ensures savedSettings == old(savedSettings) && savedSessions == old(savedSessions)
    {
      if state != Running {
        return;
      }
      state := Paused;
      StopTimer();
    }

    /** `reset`: idle, unsubscribed, and the full length of the current phase. */
    method Reset()
      modifies this
      ensures Valid()
      ensures state == Idle && !subscribed && timeRemaining == TotalTime(settings, mode)
      ensures settings == old(settings) && mode == old(mode) && completedCycles == old(completedCycles)
      ensures sessions == old(sessions) && emitted == old(emitted)
      ensures savedSettings == old(savedSettings) && savedSessions == old(savedSessions)
    {
      state := Idle;
      StopTimer();
      timeRemaining := TotalTime(settings, mode);
    }

    /**
     * `skipToNext`: move to the next phase computed from the unchanged cycle
     * count, then reset. No session is logged, no cycle counted, nothing emitted.
     */
    method SkipToNext()
      modifies this
      ensures Valid()
      ensures mode == FollowingMode(old(mode), old(completedCycles), old(settings).cyclesBeforeLongBreak)
      ensures state == Idle && !subscribed && timeRemaining == TotalTime(settings, mode)
      ensures settings == old(settings) && completedCycles == old(completedCycles)
      ensures sessions == old(sessions) && emitted == old(emitted)
      ensures savedSettings == old(savedSettings) && savedSessions == old(savedSessions)
    {
      StopTimer();
      NextMode();
      Reset();
    }

    /** `updateSettings`: merge without clamping; an idle timer shows the new phase length. */
    method UpdateSettings(patch: SettingsPatch)
      requires Valid()
      modifies this
      ensures Valid()
      ensures settings == Merge(old(settings), patch)
      ensures old(state) == Idle ==> timeRemaining == TotalTime(settings, mode)
      ensures old(state) != Idle ==> timeRemaining == old(timeRemaining)
      ensures state == old(state) && subscribed == old(subscribed) && mode == old(mode)
      ensures completedCycles == old(completedCycles) && sessions == old(sessions) && emitted == old(emitted)
      ensures savedSettings == old(savedSettings) && savedSessions == old(savedSessions)
    {
      settings := Merge(settings, patch);
      if state == Idle {
        timeRemaining := TotalTime(settings, mode);
      }
    }

    /** `clearSessions`: empty log and zero cycles; phase, state and time stay. */
    method ClearSessions()
      requires Valid()
      modifies this
      ensures Valid()
      ensures sessions == [] && completedCycles == 0
      ensures settings == old(settings) && mode == old(mode) && state == old(state)
      ensures timeRemaining == old(timeRemaining) && subscribed == old(subscribed) && emitted == old(emitted)
      ensures savedSettings == old(savedSettings) && savedSessions == old(savedSessions)
    {
      sessions := [];
      completedCycles := 0;
    }

    /** One interval event: count down one second, or complete the phase once none is left. */
    method Tick(now: int)
      requires Valid() && state == Running
      modifies this
      ensures Valid()
      ensures TickStep(old(timeRemaining)).Some? ==>
                && timeRemaining == TickStep(old(timeRemaining)).value
                && state == Running && mode == old(mode) && completedCycles == old(completedCycles)
                && sessions == old(sessions) && emitted == old(emitted)
      ensures TickStep(old(timeRemaining)).None? ==>
                && sessions == [PomodoroSession(now, old(mode), TotalTime(settings, old(mode)), now)] + old(sessions)
                && completedCycles == (if old(mode) == Work then old(completedCycles) + 1 else old(completedCycles))
                && emitted == old(emitted) + [old(mode)]
                && state == Idle && !subscribed
                && mode == FollowingMode(old(mode), completedCycles, settings.cyclesBeforeLongBreak)
                && timeRemaining == TotalTime(settings, mode)
      ensures settings == old(settings)
      ensures savedSettings == old(savedSettings) && savedSessions == old(savedSessions)
    {
      var remaining := timeRemaining;
      if remaining <= 0 {
        OnTimerComplete(now);
        return;
      }
      timeRemaining := remaining - 1;
    }

    /**
     * `onTimerComplete`: log the finished phase, count it if it was work,
     * emit it, stop, go idle, advance the phase and load its length.
     */
    method OnTimerComplete(now: int)
      modifies this
      ensures Valid()
      ensures sessions == [PomodoroSession(now, old(mode), TotalTime(settings, old(mode)), now)] + old(sessions)
      ensures completedCycles == if old(mode) == Work then old(completedCycles) + 1 else old(completedCycles)
      ensures (mode, completedCycles) ==
              CompletionStep(old(mode), old(completedCycles), settings.cyclesBeforeLongBreak)
      ensures emitted == old(emitted) + [old(mode)]
      ensures state == Idle && !subscribed && timeRemaining == TotalTime(settings, mode)
      ensures settings == old(settings)
      ensures savedSettings == old(savedSettings) && savedSessions == old(savedSessions)
    {
      var currentMode := mode;
      SaveSession(currentMode, now);
      if currentMode == Work {
        completedCycles := completedCycles + 1;
      }
      emitted := emitted + [currentMode];
      StopTimer();
      state := Idle;
      NextMode();
      timeRemaining := TotalTime(settings, mode);
    }

    /** `stopTimer`: drop the subscription if there is one; harmless when there is none. */
    method StopTimer()
      modifies this`subscribed
      ensures !subscribed
    {
      if subscribed {
        subscribed := false;
      }
    }

    /** `nextMode`: advance the phase using the current cycle count. */
    method NextMode()
      modifies this`mode
      ensures mode == FollowingMode(old(mode), completedCycles, settings.cyclesBeforeLongBreak)
    {
      var cycles := completedCycles;
      if mode == Work {
        if JsRemainder(cycles, settings.cyclesBeforeLongBreak) == Some(0) && cycles > 0 {
          mode := LongBreak;
        } else {
          mode := ShortBreak;
        }
      } else {
        mode := Work;
      }
    }

    /** `saveSession`: prepend a record of a finished `mode`, stamped with `now`. */
    method SaveSession(finished: TimerMode, now: int)
      modifies this`sessions
      ensures sessions == [PomodoroSession(now, finished, TotalTime(settings, finished), now)] + old(sessions)
    {
      var session := PomodoroSession(now, finished, TotalTime(settings, finished), now);
      sessions := [session] + sessions;
    }

    /** The effect that persists the settings whenever they change. */
    method SaveSettings()
      modifies this`savedSettings
      ensures savedSettings == if hasStorage then Some(settings) else old(savedSettings)
    {
      if !hasStorage {
        return;
      }
      savedSettings := Some(settings);
    }

    /** The effect that persists the newest 100 sessions; the in-memory log is not truncated. */
    method SaveSessions()
      modifies this`savedSessions
      ensures savedSessions == if hasStorage then Some(StoredSlice(sessions)) else old(savedSessions)
      ensures hasStorage ==> |savedSessions.value| <= MaxStoredSessions
    {
      if !hasStorage {
        return;
      }
      savedSessions := Some(StoredSlice(sessions));
    }
  }
}
