/**
 * The background timer worker (workers/timer.worker.ts): a target end time,
 * at most one 100 ms interval, and the messages it posts. Each interval firing
 * is an explicit `Step(now)`, `Date.now()` is the parameter `now`, and
 * `postMessage` appends to the `outbox` log.
 */
module TimerWorker {

  /** The messages the worker posts to the main thread. */
  datatype Message =
    | TickMsg(remaining: int, now: int)
    | CompleteMsg
    | StatusMsg(remaining: int, completed: bool)

  /** The `action` field of an incoming message; any other action is ignored. */
  datatype Action = Start(endTime: int) | Stop | Check | Unknown

  /** `Math.ceil(d / 1000)` for an integer number of milliseconds `d`. */
  function CeilSeconds(d: int): (r: int)
    ensures r * 1000 >= d && (r - 1) * 1000 < d
  {
    -((-d) / 1000)
  }

  /** `Math.max(0, Math.ceil((targetEndTime - now) / 1000))`: whole seconds left, rounded up. */
  function RemainingSeconds(targetEndTime: int, now: int): (r: int)
    ensures r >= 0
    ensures r == 0 <==> now >= targetEndTime
    ensures r > 0 ==> r * 1000 >= targetEndTime - now && (r - 1) * 1000 < targetEndTime - now
  {
    var c := CeilSeconds(targetEndTime - now);
    if c >= 0 then c else 0
  }

  /** Ceiling division is the least count of whole seconds covering the span. */
  lemma RemainingIsLeast(targetEndTime: int, now: int, r: int)
    requires now < targetEndTime
    requires r * 1000 >= targetEndTime - now
    ensures RemainingSeconds(targetEndTime, now) <= r
  {
  }

  /** For a fixed target the remaining seconds never increase as time passes. */
  lemma RemainingNonIncreasing(targetEndTime: int, now1: int, now2: int)
    requires now1 <= now2
    ensures RemainingSeconds(targetEndTime, now2) <= RemainingSeconds(targetEndTime, now1)
  {
  }

  /** The number of `complete` messages in a log. */
  function Completions(log: seq<Message>): (n: nat)
    ensures n <= |log|
    ensures CompleteMsg !in log ==> n == 0
    ensures n == multiset(log)[CompleteMsg]
  {
    if log == [] then 0
    else
      assert log == [log[0]] + log[1..];
      (if log[0] == CompleteMsg then 1 else 0) + Completions(log[1..])
  }

  lemma {:induction false} CompletionsAppend(a: seq<Message>, b: seq<Message>)
    ensures Completions(a + b) == Completions(a) + Completions(b)
  {
    if a != [] {
      assert (a + b)[1..] == a[1..] + b;
      CompletionsAppend(a[1..], b);
    } else {
      assert a + b == b;
    }
  }

  class Worker {
    var targetEndTime: int
    /** Whether `intervalId` holds a live interval. */
    var intervalActive: bool
    /** Every message posted, oldest first. */
    var outbox: seq<Message>
    /** The length of the outbox when the latest `start` arrived. */
    ghost var startMark: nat

    /** At most one `complete` since the latest start, and none while the interval still runs. */
    ghost predicate Valid()
      reads this
    {
      && startMark <= |outbox|
      && Completions(outbox[startMark..]) <= 1
      && (intervalActive ==> Completions(outbox[startMark..]) == 0)
    }

    /** The module-level initial state: no target, no interval. */
    constructor ()
      ensures Valid()
      ensures targetEndTime == 0 && !intervalActive && outbox == []
    {
      targetEndTime := 0;
      intervalActive := false;
      outbox := [];
      startMark := 0;
    }

    /** `self.onmessage`: dispatch on the action; `now` is `Date.now()` at a `check`. */
    method OnMessage(action: Action, now: int)
      requires Valid()
      modifies this
      ensures Valid()
      ensures action.Start? ==> targetEndTime == action.endTime && intervalActive && outbox == old(outbox)
      ensures action.Stop? ==> !intervalActive && targetEndTime == old(targetEndTime) && outbox == old(outbox)
      ensures action.Check? ==>
                && targetEndTime == old(targetEndTime) && intervalActive == old(intervalActive)
                && outbox == old(outbox) + StatusReport(targetEndTime, now)
      ensures action.Unknown? ==>
                targetEndTime == old(targetEndTime) && intervalActive == old(intervalActive) && outbox == old(outbox)
    {
      match action
      case Start(endTime) =>
        targetEndTime := endTime;
        StartTimer();
      case Stop =>
        StopTimer();
      case Check =>
        CheckStatus(now);
      case Unknown =>
    }

    /** `startTimer`: clear any previous interval, then create one. */
    method StartTimer()
      requires Valid()
      modifies this
      ensures Valid()
      ensures intervalActive && targetEndTime == old(targetEndTime) && outbox == old(outbox)
      ensures startMark == |outbox|
    {
      StopTimer();
      intervalActive := true;
      startMark := |outbox|;
    }

    /** `stopTimer`: clear the interval if there is one; the target is untouched. */
    method StopTimer()
      modifies this`intervalActive
      ensures !intervalActive
    {
      if intervalActive {
        intervalActive := false;
      }
    }

    /**
     * One firing of the interval: post the rounded-up remaining seconds; when
     * none are left also post `complete` and stop the interval.
     */
    method Step(now: int)
      requires Valid() && intervalActive
      modifies this
      ensures Valid()
      ensures targetEndTime == old(targetEndTime)
      ensures RemainingSeconds(targetEndTime, now) > 0 ==>
                outbox == old(outbox) + [TickMsg(RemainingSeconds(targetEndTime, now), now)] && intervalActive
      ensures RemainingSeconds(targetEndTime, now) == 0 ==>
                outbox == old(outbox) + [TickMsg(0, now), CompleteMsg] && !intervalActive
    {
      var remaining := RemainingSeconds(targetEndTime, now);
      Post(TickMsg(remaining, now));
      if remaining <= 0 {
        Post(CompleteMsg);
        StopTimer();
      }
    }

    /** `checkStatus`: report the remaining time, unless no target was ever set. */
    method CheckStatus(now: int)
      requires Valid()
      modifies this`outbox
      ensures Valid()
      ensures outbox == old(outbox) + StatusReport(targetEndTime, now)
    {
      if targetEndTime == 0 {
        return;
      }
      var remaining := RemainingSeconds(targetEndTime, now);
      Post(StatusMsg(remaining, remaining <= 0));
    }

    /** `self.postMessage`, with its effect on the count of `complete` messages since the latest start. */
    method Post(m: Message)
      requires startMark <= |outbox|
      modifies this`outbox
      ensures outbox == old(outbox) + [m]
      ensures Completions(outbox[startMark..]) == Completions(old(outbox)[startMark..]) + (if m == CompleteMsg then 1 else 0)
    {
      CompletionsAppend(outbox[startMark..], [m]);
      assert outbox[startMark..] + [m] == (outbox + [m])[startMark..];
      outbox := outbox + [m];
    }
  }

  /** What `checkStatus` posts: nothing for a zero target, else one status with `completed` iff no time is left. */
  function StatusReport(targetEndTime: int, now: int): (posted: seq<Message>)
    ensures targetEndTime == 0 ==> posted == []
    ensures targetEndTime != 0 ==>
              |posted| == 1 && posted[0].StatusMsg? && posted[0].remaining >= 0
              && (posted[0].completed <==> now >= targetEndTime)
    ensures targetEndTime != 0 ==> posted[0].remaining == RemainingSeconds(targetEndTime, now)
  {
    if targetEndTime == 0 then [] else
    var remaining := RemainingSeconds(targetEndTime, now);
    [StatusMsg(remaining, remaining <= 0)]
  }
}
