/**
 * Completed-session records, period filtering and statistics (models/session.model.ts).
 * Timestamps are abstract integers (milliseconds); the calendar arithmetic that
 * produces each period's cutoff and the `toDateString` day key are parameters.
 */
module SessionModel {
  import opened TimerModel

  /** A completed phase: `duration` in seconds, `completedAt` a timestamp, `id` the stringified creation time. */
  datatype PomodoroSession = PomodoroSession(id: int, mode: TimerMode, duration: int, completedAt: int)

  datatype SessionPeriodFilter = Today | Week | Month | All

  /** The start of today, the instant seven days ago and the instant one month ago, relative to "now". */
  datatype PeriodCutoffs = PeriodCutoffs(todayStart: int, weekAgo: int, monthAgo: int)

  datatype SessionStats = SessionStats(
    totalSessions: nat,
    workSessions: nat,
    totalFocusMinutes: int,
    totalBreakMinutes: int,
    averageSessionsPerDay: real)

  /** `a` is an order-preserving subsequence of `b`. */
  ghost predicate IsSubsequence(a: seq<PomodoroSession>, b: seq<PomodoroSession>)
    decreases |b|
  {
    if a == [] then true
    else if b == [] then false
    else (a[0] == b[0] && IsSubsequence(a[1..], b[1..])) || IsSubsequence(a, b[1..])
  }

  /** `sessions.filter(s => s.completedAt >= cutoff)` */
  function CompletedSince(sessions: seq<PomodoroSession>, cutoff: int): (r: seq<PomodoroSession>)
    ensures |r| <= |sessions|
    ensures forall s :: s in r <==> s in sessions && s.completedAt >= cutoff
  {
    if sessions == [] then []
    else if sessions[0].completedAt >= cutoff then [sessions[0]] + CompletedSince(sessions[1..], cutoff)
    else CompletedSince(sessions[1..], cutoff)
  }

  /** The filtered list keeps the input's order and every qualifying occurrence. */
  lemma {:induction false} CompletedSinceIsSubsequence(sessions: seq<PomodoroSession>, cutoff: int)
    ensures IsSubsequence(CompletedSince(sessions, cutoff), sessions)
    ensures forall s :: multiset(CompletedSince(sessions, cutoff))[s] ==
                        (if s.completedAt >= cutoff then multiset(sessions)[s] else 0)
  {
    if sessions != [] {
      CompletedSinceIsSubsequence(sessions[1..], cutoff);
      assert sessions == [sessions[0]] + sessions[1..];
      var r := CompletedSince(sessions, cutoff);
      if sessions[0].completedAt >= cutoff {
        assert r[0] == sessions[0] && r[1..] == CompletedSince(sessions[1..], cutoff);
      } else {
        if r != [] {
          assert IsSubsequence(r, sessions[1..]);
        }
      }
    }
  }

  /** Filtering twice with the same cutoff is filtering once. */
  lemma {:induction false} CompletedSinceIdempotent(sessions: seq<PomodoroSession>, cutoff: int)
    ensures CompletedSince(CompletedSince(sessions, cutoff), cutoff) == CompletedSince(sessions, cutoff)
  {
    if sessions != [] {
      CompletedSinceIdempotent(sessions[1..], cutoff);
      if sessions[0].completedAt >= cutoff {
        var r := CompletedSince(sessions, cutoff);
        assert r[0] == sessions[0] && r[1..] == CompletedSince(sessions[1..], cutoff);
      }
    }
  }

  /** `filterSessionsByPeriod`: `'all'` returns the list itself, any other period filters by its cutoff. */
  function FilterSessionsByPeriod(sessions: seq<PomodoroSession>, period: SessionPeriodFilter,
                                  cutoffs: PeriodCutoffs): (r: seq<PomodoroSession>)
    ensures period == All ==> r == sessions
    ensures period == Today ==> r == CompletedSince(sessions, cutoffs.todayStart)
    ensures period == Week ==> r == CompletedSince(sessions, cutoffs.weekAgo)
    ensures period == Month ==> r == CompletedSince(sessions, cutoffs.monthAgo)
    ensures |r| <= |sessions|
  {
    match period
    case Today => CompletedSince(sessions, cutoffs.todayStart)
    case Week => CompletedSince(sessions, cutoffs.weekAgo)
    case Month => CompletedSince(sessions, cutoffs.monthAgo)
    case All => sessions
  }

  /** `sessions.filter(s => s.mode === 'work')` when `work`, `s.mode !== 'work'` otherwise. */
  function ByWork(sessions: seq<PomodoroSession>, work: bool): (r: seq<PomodoroSession>)
    ensures forall s :: s in r <==> s in sessions && (s.mode == Work) == work
  {
    if sessions == [] then []
    else if (sessions[0].mode == Work) == work then [sessions[0]] + ByWork(sessions[1..], work)
    else ByWork(sessions[1..], work)
  }

  /** The work and break partitions are disjoint and together hold every session exactly once. */
  lemma {:induction false} PartitionCovers(sessions: seq<PomodoroSession>)
    ensures multiset(ByWork(sessions, true)) + multiset(ByWork(sessions, false)) == multiset(sessions)
    ensures |ByWork(sessions, true)| + |ByWork(sessions, false)| == |sessions|
    ensures multiset(ByWork(sessions, true)) !! multiset(ByWork(sessions, false))
  {
    if sessions != [] {
      PartitionCovers(sessions[1..]);
      assert sessions == [sessions[0]] + sessions[1..];
    }
  }

  /** Sum of the durations (seconds). */
  function TotalDuration(sessions: seq<PomodoroSession>): int
  {
    if sessions == [] then 0 else sessions[0].duration + TotalDuration(sessions[1..])
  }

  lemma {:induction false} TotalDurationNonNegative(sessions: seq<PomodoroSession>)
    requires forall i :: 0 <= i < |sessions| ==> sessions[i].duration >= 0
    ensures TotalDuration(sessions) >= 0
  {
    if sessions != [] {
      TotalDurationNonNegative(sessions[1..]);
    }
  }

  /** Focus time plus break time is all the time recorded. */
  lemma {:induction false} PartitionDurationsAddUp(sessions: seq<PomodoroSession>)
    ensures TotalDuration(ByWork(sessions, true)) + TotalDuration(ByWork(sessions, false)) == TotalDuration(sessions)
  {
    if sessions != [] {
      PartitionDurationsAddUp(sessions[1..]);
      var w := sessions[0].mode == Work;
      assert ([sessions[0]] + ByWork(sessions[1..], w))[1..] == ByWork(sessions[1..], w);
    }
  }

  /** `Math.round`: the nearest integer, halves rounded up. */
  function Round(x: real): (r: int)
    ensures x - 0.5 < r as real <= x + 0.5
  {
    (x + 0.5).Floor
  }

  /** The set of distinct day keys of the sessions (`new Set(dates)`). */
  function Days(sessions: seq<PomodoroSession>, dayKey: int -> int): set<int>
  {
    if sessions == [] then {} else {dayKey(sessions[0].completedAt)} + Days(sessions[1..], dayKey)
  }

  /** The days are exactly the day keys of the sessions' completion times. */
  lemma {:induction false} DaysAreSessionDays(sessions: seq<PomodoroSession>, dayKey: int -> int)
    ensures Days(sessions, dayKey) == set i | 0 <= i < |sessions| :: dayKey(sessions[i].completedAt)
  {
    if sessions != [] {
      DaysAreSessionDays(sessions[1..], dayKey);
      var rest := Days(sessions[1..], dayKey);
      forall d | d in rest ensures exists i :: 1 <= i < |sessions| && dayKey(sessions[i].completedAt) == d {
        var j :| 0 <= j < |sessions[1..]| && dayKey(sessions[1..][j].completedAt) == d;
        assert sessions[j + 1] == sessions[1..][j];
      }
      forall i | 1 <= i < |sessions| ensures dayKey(sessions[i].completedAt) in rest {
        assert sessions[i] == sessions[1..][i - 1];
      }
    }
  }

  /** There are never more distinct days than sessions, and a non-empty list has at least one day. */
  lemma {:induction false} DaysBounded(sessions: seq<PomodoroSession>, dayKey: int -> int)
    ensures |Days(sessions, dayKey)| <= |sessions|
    ensures sessions != [] ==> |Days(sessions, dayKey)| >= 1
  {
    if sessions != [] {
      DaysBounded(sessions[1..], dayKey);
      assert dayKey(sessions[0].completedAt) in Days(sessions, dayKey);
    }
  }

  /** `Math.round(x * 10) / 10` */
  function RoundToTenth(x: real): (r: real)
    ensures x - 0.05 < r <= x + 0.05
    ensures (r * 10.0).Floor as real == r * 10.0
  {
    Round(x * 10.0) as real / 10.0
  }

  /** Durations are non-negative in every partition when they are in the whole list. */
  lemma PartitionDurationsNonNegative(sessions: seq<PomodoroSession>, work: bool)
    requires forall i :: 0 <= i < |sessions| ==> sessions[i].duration >= 0
    ensures TotalDuration(ByWork(sessions, work)) >= 0
  {
    var part := ByWork(sessions, work);
    forall i | 0 <= i < |part| ensures part[i].duration >= 0 {
      assert part[i] in sessions;
    }
    TotalDurationNonNegative(part);
  }

  /** `sessions.length / uniqueDates.length`, rounded to one decimal; 0 for an empty list. */
  function AverageSessionsPerDay(count: nat, days: nat): (r: real)
    requires count > 0 ==> 1 <= days <= count
    ensures count == 0 ==> r == 0.0
    ensures count > 0 ==> r >= 1.0 && r == RoundToTenth(count as real / days as real)
  {
    if count > 0 then
      var ratio := count as real / days as real;
      assert ratio * 10.0 >= 10.0 by {
        assert ratio * days as real == count as real;
        assert count as real >= days as real;
      }
      RoundToTenth(ratio)
    else 0.0
  }

  /** `calculateSessionStats`, with minutes as the rounded sums of `duration / 60`. */
  function CalculateSessionStats(sessions: seq<PomodoroSession>, dayKey: int -> int): (r: SessionStats)
    ensures r.totalSessions == |sessions|
    ensures r.workSessions == |ByWork(sessions, true)| <= r.totalSessions
    ensures sessions == [] ==> r == SessionStats(0, 0, 0, 0, 0.0)
    ensures sessions != [] ==> r.averageSessionsPerDay >= 1.0
    ensures r.totalFocusMinutes == Round(TotalDuration(ByWork(sessions, true)) as real / 60.0)
    ensures r.totalBreakMinutes == Round(TotalDuration(ByWork(sessions, false)) as real / 60.0)
    ensures sessions != [] ==>
              r.averageSessionsPerDay == RoundToTenth(|sessions| as real / |Days(sessions, dayKey)| as real)
    ensures (forall i :: 0 <= i < |sessions| ==> sessions[i].duration >= 0) ==>
              r.totalFocusMinutes >= 0 && r.totalBreakMinutes >= 0
  {
    var work := ByWork(sessions, true);
    var breaks := ByWork(sessions, false);
    WorkAtMostAll(sessions);
    DaysBounded(sessions, dayKey);
    assert (forall i :: 0 <= i < |sessions| ==> sessions[i].duration >= 0) ==>
             TotalDuration(work) >= 0 && TotalDuration(breaks) >= 0 by {
      if forall i :: 0 <= i < |sessions| ==> sessions[i].duration >= 0 {
        PartitionDurationsNonNegative(sessions, true);
        PartitionDurationsNonNegative(sessions, false);
      }
    }
    SessionStats(
      |sessions|,
      |work|,
      Round(TotalDuration(work) as real / 60.0),
      Round(TotalDuration(breaks) as real / 60.0),
      AverageSessionsPerDay(|sessions|, if sessions == [] then 0 else |Days(sessions, dayKey)|))
  }

  lemma WorkAtMostAll(sessions: seq<PomodoroSession>)
    ensures |ByWork(sessions, true)| <= |sessions|
  {
    PartitionCovers(sessions);
  }
}
