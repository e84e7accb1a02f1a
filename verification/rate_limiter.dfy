/** The client-side rate limiter of services/geminiService.ts:15-38: a queue
    of the times of accepted requests, pruned from the front, that refuses a
    request once 15 of them fall within the last minute. */
module RateLimiter {
  import opened Base

  /** `RATE_LIMIT_COUNT` (geminiService.ts:16) */
  const RateLimitCount: nat := 15
  /** `RATE_LIMIT_INTERVAL` in milliseconds (geminiService.ts:17) */
  const RateLimitInterval: int := 60 * 1000

  /** The first timestamp still counted at time `now`. */
  function WindowStart(now: int): int {
    now - RateLimitInterval
  }

  /** How many timestamps at the front of the queue are strictly older than
      the window: all of the first `k` are, and the next one (if any) is not. */
  function Expired(ts: seq<int>, now: int): (k: nat)
    ensures k <= |ts|
    ensures forall i :: 0 <= i < k ==> ts[i] < WindowStart(now)
    ensures k < |ts| ==> ts[k] >= WindowStart(now)
    decreases |ts|
  {
    if ts != [] && ts[0] < WindowStart(now) then
      var k := 1 + Expired(ts[1..], now);
      assert forall i :: 1 <= i < k ==> ts[i] == ts[1..][i - 1];
      k
    else 0
  }

  /** What the pruning loop leaves: the queue without its expired front. */
  function Prune(ts: seq<int>, now: int): seq<int> {
    ts[Expired(ts, now)..]
  }

  /** The pruning loop (geminiService.ts:26-28), which shifts expired
      timestamps off the front of the queue until the first one inside the
      window. */
  method PruneQueue(ts: seq<int>, now: int) returns (queue: seq<int>)
    ensures queue == Prune(ts, now)
    ensures |queue| <= |ts| && queue == ts[|ts| - |queue|..]
    ensures forall i :: 0 <= i < |ts| - |queue| ==> ts[i] < WindowStart(now)
    ensures queue != [] ==> queue[0] >= WindowStart(now)
  {
    queue := ts;
    ghost var k := 0;
    while |queue| > 0 && queue[0] < now - RateLimitInterval
      invariant k <= |ts| && queue == ts[k..]
      invariant forall i :: 0 <= i < k ==> ts[i] < WindowStart(now)
      decreases |queue|
    {
      queue := queue[1..];
      k := k + 1;
    }
  }

  /** The outcome of one `check`: whether the request may proceed, and the
      queue afterwards. */
  datatype CheckResult = CheckResult(allowed: bool, queue: seq<int>)

  /** `rateLimiter.check()` at time `now` (geminiService.ts:22-37). */
  function Check(ts: seq<int>, now: int): CheckResult {
    var kept := Prune(ts, now);
    if |kept| >= RateLimitCount then CheckResult(false, kept)
    else CheckResult(true, kept + [now])
  }

  /** Non-decreasing. */
  predicate Sorted(ts: seq<int>) {
    forall i, j :: 0 <= i < j < |ts| ==> ts[i] <= ts[j]
  }

  /** How many timestamps of `ts` are at or after `bound`. */
  function CountFrom(ts: seq<int>, bound: int): nat
    decreases |ts|
  {
    if ts == [] then 0
    else (if ts[0] >= bound then 1 else 0) + CountFrom(ts[1..], bound)
  }

  /** A refused check only prunes; an accepted one prunes and appends `now`
      at the end. A timestamp exactly at the window's start survives. */
  lemma CheckFacts(ts: seq<int>, now: int)
    ensures var r := Check(ts, now);
      && (!r.allowed <==> |Prune(ts, now)| >= RateLimitCount)
      && (!r.allowed ==> r.queue == Prune(ts, now))
      && (r.allowed ==> r.queue == Prune(ts, now) + [now])
    ensures ts != [] && ts[0] == WindowStart(now) ==> Prune(ts, now) == ts
  {
  }

  /** A queue holding at most 15 timestamps keeps holding at most 15. */
  lemma CheckBounded(ts: seq<int>, now: int)
    requires |ts| <= RateLimitCount
    ensures |Check(ts, now).queue| <= RateLimitCount
  {
  }

  /** With a clock that never goes back, the queue stays sorted. */
  lemma CheckKeepsSorted(ts: seq<int>, now: int)
    requires Sorted(ts) && forall i :: 0 <= i < |ts| ==> ts[i] <= now
    ensures Sorted(Check(ts, now).queue)
    ensures forall i :: 0 <= i < |Check(ts, now).queue| ==> Check(ts, now).queue[i] <= now
  {
    var e := Expired(ts, now);
    assert forall i :: 0 <= i < |ts| - e ==> ts[e..][i] == ts[e + i];
    SortedSnoc(ts[e..], now);
  }

  lemma SortedSnoc(ts: seq<int>, x: int)
    requires Sorted(ts) && forall i :: 0 <= i < |ts| ==> ts[i] <= x
    ensures Sorted(ts + [x])
  {
  }

  lemma {:induction false} CountAppend(a: seq<int>, b: seq<int>, bound: int)
    ensures CountFrom(a + b, bound) == CountFrom(a, bound) + CountFrom(b, bound)
    decreases |a|
  {
    if a == [] {
      assert a + b == b;
    } else {
      assert (a + b)[1..] == a[1..] + b;
      CountAppend(a[1..], b, bound);
    }
  }

  lemma {:induction false} CountBelow(ts: seq<int>, bound: int)
    requires forall i :: 0 <= i < |ts| ==> ts[i] < bound
    ensures CountFrom(ts, bound) == 0
    decreases |ts|
  {
    if ts != [] {
      CountBelow(ts[1..], bound);
    }
  }

  lemma {:induction false} CountAbove(ts: seq<int>, bound: int)
    requires forall i :: 0 <= i < |ts| ==> ts[i] >= bound
    ensures CountFrom(ts, bound) == |ts|
    decreases |ts|
  {
    if ts != [] {
      CountAbove(ts[1..], bound);
    }
  }

  /** Where the pruned queue starts in the log it is a suffix of. */
  function Cut(log: seq<int>, ts: seq<int>, now: int): int {
    |log| - |ts| + Expired(ts, now)
  }

  /** The sliding window. Let `log` be every accepted request time and
      `ts` the queue: a suffix of `log` whose dropped prefix is older than
      the window. When what survives pruning lies in the window (as it does
      for a sorted log, by PrunedInWindow), the pruned queue holds exactly
      the accepted requests inside the window, so a request is accepted if
      and only if fewer than 15 accepted requests fall within the preceding
      minute. */
  lemma WindowCount(log: seq<int>, ts: seq<int>, now: int)
    requires |ts| <= |log| && ts == log[|log| - |ts|..]
    requires forall i :: 0 <= i < |log| - |ts| ==> log[i] < WindowStart(now)
    requires forall i :: Cut(log, ts, now) <= i < |log| ==> log[i] >= WindowStart(now)
    ensures |Prune(ts, now)| == CountFrom(log, WindowStart(now))
    ensures Check(ts, now).allowed <==> CountFrom(log, WindowStart(now)) < RateLimitCount
  {
    var bound := WindowStart(now);
    var cut := Cut(log, ts, now);
    assert CountFrom(log[..cut], bound) == 0 by {
      DroppedBelow(log, ts, now);
      CountBelow(log[..cut], bound);
    }
    assert CountFrom(log[cut..], bound) == |log| - cut by {
      assert forall i :: 0 <= i < |log| - cut ==> log[cut..][i] == log[cut + i];
      CountAbove(log[cut..], bound);
    }
    assert log == log[..cut] + log[cut..];
    CountAppend(log[..cut], log[cut..], bound);
  }

  /** Everything in the log before the pruned queue lies before the window. */
  lemma DroppedBelow(log: seq<int>, ts: seq<int>, now: int)
    requires |ts| <= |log| && ts == log[|log| - |ts|..]
    requires forall i :: 0 <= i < |log| - |ts| ==> log[i] < WindowStart(now)
    ensures 0 <= Cut(log, ts, now) <= |log|
    ensures forall i :: 0 <= i < Cut(log, ts, now) ==> log[..Cut(log, ts, now)][i] < WindowStart(now)
  {
    var off := |log| - |ts|;
    forall i | off <= i < Cut(log, ts, now)
      ensures log[i] < WindowStart(now)
    {
      assert log[i] == ts[i - off];
    }
  }

  /** In a sorted log, everything that survives pruning is inside the
      window: pruning stops at the first timestamp in the window, and every
      later one is no earlier. */
  lemma PrunedInWindow(log: seq<int>, ts: seq<int>, now: int)
    requires Sorted(log)
    requires |ts| <= |log| && ts == log[|log| - |ts|..]
    ensures forall i :: Cut(log, ts, now) <= i < |log| ==> log[i] >= WindowStart(now)
  {
    var cut := Cut(log, ts, now);
    if cut < |log| {
      assert log[cut] == ts[Expired(ts, now)];
    }
  }

  /** The limiter's invariant: `log` is every accepted request time in order,
      none after the clock; the queue is a suffix of it, at most 15 long,
      whose dropped prefix lies before the window at the last reading. */
  ghost predicate Accounted(log: seq<int>, ts: seq<int>, last: int) {
    && Sorted(log)
    && |ts| <= |log| && ts == log[|log| - |ts|..]
    && (forall i :: 0 <= i < |log| - |ts| ==> log[i] < WindowStart(last))
    && (forall i :: 0 <= i < |log| ==> log[i] <= last)
    && |ts| <= RateLimitCount
  }

  /** Pruning a suffix whose dropped prefix is older than the window leaves
      a (shorter) suffix of the log with the same property at `now`. */
  lemma PruneSuffix(log: seq<int>, ts: seq<int>, last: int, now: int)
    requires |ts| <= |log| && ts == log[|log| - |ts|..]
    requires forall i :: 0 <= i < |log| - |ts| ==> log[i] < WindowStart(last)
    requires now >= last
    ensures var kept := Prune(ts, now);
      && kept == log[|log| - |kept|..]
      && forall i :: 0 <= i < |log| - |kept| ==> log[i] < WindowStart(now)
  {
    var cut := Cut(log, ts, now);
    assert Prune(ts, now) == log[cut..];
    DroppedBelow(log, ts, now);
    assert forall i :: 0 <= i < cut ==> log[..cut][i] == log[i];
  }

  /** Appending a request time no earlier than any logged one keeps the
      queue a suffix of the log, with the same dropped prefix. */
  lemma SnocSuffix(log: seq<int>, kept: seq<int>, now: int)
    requires |kept| <= |log| && kept == log[|log| - |kept|..]
    requires forall i :: 0 <= i < |log| - |kept| ==> log[i] < WindowStart(now)
    ensures kept + [now] == (log + [now])[|log + [now]| - |kept + [now]|..]
    ensures forall i :: 0 <= i < |log + [now]| - |kept + [now]| ==> (log + [now])[i] < WindowStart(now)
  {
    var cut := |log| - |kept|;
    assert (log + [now])[cut..] == log[cut..] + [now];
    forall i | 0 <= i < cut
      ensures (log + [now])[i] < WindowStart(now)
    {
      assert (log + [now])[i] == log[i];
    }
  }

  /** Recording an accepted request keeps the invariant. */
  lemma SnocAccounted(log: seq<int>, kept: seq<int>, now: int)
    requires |kept| <= |log| && kept == log[|log| - |kept|..]
    requires forall i :: 0 <= i < |log| - |kept| ==> log[i] < WindowStart(now)
    requires Sorted(log) && forall i :: 0 <= i < |log| ==> log[i] <= now
    requires |kept| < RateLimitCount
    ensures Accounted(log + [now], kept + [now], now)
  {
    SortedSnoc(log, now);
    SnocSuffix(log, kept, now);
  }

  /** A refused check keeps the invariant with the pruned queue. */
  lemma RefuseKeepsAccounted(log: seq<int>, ts: seq<int>, last: int, now: int)
    requires Accounted(log, ts, last) && now >= last
    ensures Accounted(log, Prune(ts, now), now)
  {
    PruneSuffix(log, ts, last, now);
  }

  /** An accepted check keeps the invariant with `now` recorded. */
  lemma AcceptKeepsAccounted(log: seq<int>, ts: seq<int>, last: int, now: int)
    requires Accounted(log, ts, last) && now >= last
    requires |Prune(ts, now)| < RateLimitCount
    ensures Accounted(log + [now], Prune(ts, now) + [now], now)
  {
    var kept := Prune(ts, now);
    assert kept == log[|log| - |kept|..] && forall i :: 0 <= i < |log| - |kept| ==> log[i] < WindowStart(now) by {
      PruneSuffix(log, ts, last, now);
    }
    SnocAccounted(log, kept, now);
  }

  /** One check at a later clock reading keeps the invariant, recording `now`
      in the log exactly when the request is accepted. */
  lemma CheckKeepsAccounted(log: seq<int>, ts: seq<int>, last: int, now: int)
    requires Accounted(log, ts, last) && now >= last
    ensures var r := Check(ts, now);
      Accounted(if r.allowed then log + [now] else log, r.queue, now)
    ensures Check(ts, now).allowed <==> CountFrom(log, WindowStart(now)) < RateLimitCount
  {
    assert Check(ts, now).allowed <==> CountFrom(log, WindowStart(now)) < RateLimitCount by {
      PrunedInWindow(log, ts, now);
      WindowCount(log, ts, now);
    }
    if |Prune(ts, now)| < RateLimitCount {
      AcceptKeepsAccounted(log, ts, last, now);
    } else {
      RefuseKeepsAccounted(log, ts, last, now);
    }
  }

  /** The error every guarded call throws when refused. */
  const TooQuickly: string :=
    "You're making requests too quickly. Please wait a moment and try again."

  /** The five exported calls that start with the guard. */
  datatype ApiCall =
    | GenerateCourseOutline   // geminiService.ts:104-106
    | RefineText              // geminiService.ts:168-170
    | GenerateSpeech          // geminiService.ts:190-192
    | GenerateLessonContent   // geminiService.ts:220-222
    | GenerateOutreachDraft   // geminiService.ts:268-270

  /** What the guard lets happen: the call goes on to the network, or fails
      with the given message before doing anything. */
  datatype GuardOutcome = Proceed | Refused(message: string)

  /** The module-level limiter: `requestTimestamps` and, as ghost state, every
      accepted request time and the last clock reading. */
  class Limiter {
    var timestamps: seq<int>
    ghost var log: seq<int>
    ghost var lastNow: int

    ghost predicate Valid()
      reads this
    {
      Accounted(log, timestamps, lastNow)
    }

    constructor (startTime: int)
      ensures Valid() && timestamps == [] && log == []
    {
      timestamps := [];
      log := [];
      lastNow := startTime;
    }

    /** `rateLimiter.check()` (geminiService.ts:22-37) at clock reading `now`. */
    method CheckAt(now: int) returns (allowed: bool)
      requires Valid() && now >= lastNow
      modifies this
      ensures Valid() && lastNow == now
      ensures CheckResult(allowed, timestamps) == Check(old(timestamps), now)
      ensures allowed <==> CountFrom(old(log), WindowStart(now)) < RateLimitCount
      ensures log == if allowed then old(log) + [now] else old(log)
    {
      CheckKeepsAccounted(log, timestamps, lastNow, now);
      var queue := PruneQueue(timestamps, now);
      timestamps, lastNow := queue, now;
      if |timestamps| >= RateLimitCount {
        return false;
      }
      timestamps := timestamps + [now];
      log := log + [now];
      allowed := true;
    }

    /** The guard at the top of each exported call. */
    method Guard(call: ApiCall, now: int) returns (outcome: GuardOutcome)
      requires Valid() && now >= lastNow
      modifies this
      ensures Valid() && lastNow == now
      ensures outcome == if Check(old(timestamps), now).allowed then Proceed else Refused(TooQuickly)
      ensures timestamps == Check(old(timestamps), now).queue
      ensures outcome.Proceed? <==> CountFrom(old(log), WindowStart(now)) < RateLimitCount
    {
      var allowed := CheckAt(now);
      outcome := if allowed then Proceed else Refused(TooQuickly);
    }
  }
}
