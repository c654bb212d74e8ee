/** The two fixed-window rate limiters, of Admin mutations and of capability calls: that they agree,
    how much they let through, and what a refused caller is told. */
module RateWindows {
  import opened Options

  /** A window and how many requests it has admitted. */
  datatype Window = Window(startedAt: int, count: int)

  datatype Rule = Rule(limit: int, windowMs: int)

  predicate IsRule(r: Rule) {
    r.limit >= 1 && r.windowMs >= 1
  }

  /** What an admitting store holds: a window with at least its first request and at most the limit. */
  predicate IsStored(r: Rule, w: Option<Window>) {
    w.None? || 1 <= w.value.count <= r.limit
  }

  // ----- Admin mutations -----

  datatype Reservation = Reservation(record: Window, count: int)

  function EvaluateFixedWindowReservation(current: Option<Window>, nowMs: int, r: Rule): Reservation {
    if current.None? || current.value.startedAt > nowMs || nowMs >= current.value.startedAt + r.windowMs then
      Reservation(Window(nowMs, 1), 1)
    else if current.value.count >= r.limit then Reservation(current.value, r.limit + 1)
    else
      var count := current.value.count + 1;
      Reservation(current.value.(count := count), count)
  }

  datatype Decision = Allowed(remaining: int) | Refused(retryAfterSeconds: int)

  function CeilDiv(n: int, d: int): int
    requires d > 0
  {
    -((-n) / d)
  }

  function Reserve(current: Option<Window>, nowMs: int, limit: int, windowSeconds: int): Decision {
    var reservation := EvaluateFixedWindowReservation(current, nowMs, Rule(limit, windowSeconds * 1000));
    if reservation.count <= limit then Allowed(limit - reservation.count)
    else
      var seconds := CeilDiv(reservation.record.startedAt + windowSeconds * 1000 - nowMs, 1000);
      Refused(if seconds < 1 then 1 else seconds)
  }

  /** A refused caller is told to wait between one second and the whole window, long enough to reach
      the window's end and no second longer, and a request made then is admitted. */
  lemma RetryReachesTheWindowsEnd(current: Option<Window>, nowMs: int, limit: int, windowSeconds: int)
    requires limit >= 1 && windowSeconds >= 1 && Reserve(current, nowMs, limit, windowSeconds).Refused?
    ensures current.Some? && current.value.startedAt <= nowMs
    ensures var retry := Reserve(current, nowMs, limit, windowSeconds).retryAfterSeconds;
      var end := current.value.startedAt + windowSeconds * 1000;
      && 1 <= retry <= windowSeconds
      && nowMs + retry * 1000 >= end > nowMs + (retry - 1) * 1000
      && Reserve(current, nowMs + retry * 1000, limit, windowSeconds) == Allowed(limit - 1)
  {
  }

  // ----- capability calls -----

  datatype Check = Check(allowed: bool, stored: Option<Window>, count: int, resetAt: int)

  function CheckCapability(current: Option<Window>, at: int, r: Rule): Check {
    var expired := current.None? || at - current.value.startedAt >= r.windowMs;
    var bucket := if expired then Window(at, 0) else current.value;
    var next := bucket.(count := bucket.count + 1);
    var resetAt := bucket.startedAt + r.windowMs;
    if next.count > r.limit then Check(false, current, next.count, resetAt)
    else Check(true, Some(next), next.count, resetAt)
  }

  // ----- runs -----

  /** Whether each request is admitted, in order, by the Admin limiter. */
  function ReserveAll(r: Rule, current: Option<Window>, times: seq<int>): seq<bool>
    decreases |times|
  {
    if times == [] then []
    else
      var step := EvaluateFixedWindowReservation(current, times[0], r);
      [step.count <= r.limit] + ReserveAll(r, Some(step.record), times[1..])
  }

  /** The same by the capability limiter. */
  function CheckAll(r: Rule, current: Option<Window>, times: seq<int>): seq<bool>
    decreases |times|
  {
    if times == [] then []
    else
      var step := CheckCapability(current, times[0], r);
      [step.allowed] + CheckAll(r, step.stored, times[1..])
  }

  predicate Nondecreasing(times: seq<int>) {
    forall i, k :: 0 <= i < k < |times| ==> times[i] <= times[k]
  }

  predicate StartedBefore(current: Option<Window>, times: seq<int>) {
    current.None? || forall i :: 0 <= i < |times| ==> current.value.startedAt <= times[i]
  }

  lemma StepsAgree(r: Rule, current: Option<Window>, now: int)
    requires IsRule(r) && IsStored(r, current)
    ensures current.None? || current.value.startedAt <= now ==>
      var a, b := EvaluateFixedWindowReservation(current, now, r), CheckCapability(current, now, r);
      && (a.count <= r.limit <==> b.allowed)
      && b.stored == Some(a.record) && IsStored(r, b.stored) && a.record.startedAt <= now
  {
  }

  /** For requests whose times never go back, the two limiters admit exactly the same ones. */
  lemma {:induction false} LimitersAgree(r: Rule, current: Option<Window>, times: seq<int>)
    requires IsRule(r) && IsStored(r, current) && Nondecreasing(times) && StartedBefore(current, times)
    ensures ReserveAll(r, current, times) == CheckAll(r, current, times)
    decreases |times|
  {
    if times != [] {
      StepsAgree(r, current, times[0]);
      LimitersAgree(r, Some(EvaluateFixedWindowReservation(current, times[0], r).record), times[1..]);
    }
  }

  /** The two limiters judge a request differently exactly when a clock went back into a full window:
      the Admin limiter starts a new one and admits, the other goes on counting and refuses. */
  lemma LimitersPartWhenTimeGoesBack(r: Rule, current: Option<Window>, now: int)
    requires IsRule(r) && IsStored(r, current)
    ensures var admin := EvaluateFixedWindowReservation(current, now, r).count <= r.limit;
      var capability := CheckCapability(current, now, r).allowed;
      && (admin != capability <==> current.Some? && now < current.value.startedAt && current.value.count >= r.limit)
      && (admin != capability ==> admin)
  {
  }

  /** How many requests with times in [from, from + windowMs) are admitted. */
  function AdmittedWithin(r: Rule, current: Option<Window>, times: seq<int>, from: int): int
    decreases |times|
  {
    if times == [] then 0
    else
      var step := EvaluateFixedWindowReservation(current, times[0], r);
      (if step.count <= r.limit && from <= times[0] < from + r.windowMs then 1 else 0)
      + AdmittedWithin(r, Some(step.record), times[1..], from)
  }

  /** How many more the interval can see admitted, by the window held and the time reached. */
  function Room(r: Rule, current: Option<Window>, reached: int, from: int): int {
    if current.None? || (reached < from && current.value.startedAt < from) then 2 * r.limit - 1
    else if current.value.startedAt >= from then r.limit - current.value.count
    else 2 * r.limit - current.value.count
  }

  lemma {:induction false} NoneAfter(r: Rule, current: Option<Window>, times: seq<int>, from: int)
    requires forall i :: 0 <= i < |times| ==> times[i] >= from + r.windowMs
    ensures AdmittedWithin(r, current, times, from) == 0
    decreases |times|
  {
    if times != [] {
      NoneAfter(r, Some(EvaluateFixedWindowReservation(current, times[0], r).record), times[1..], from);
    }
  }

  lemma {:induction false} AdmittedFitsRoom(r: Rule, current: Option<Window>, times: seq<int>, reached: int, from: int)
    requires IsRule(r) && IsStored(r, current) && Nondecreasing(times)
    requires current.None? || current.value.startedAt <= reached
    requires forall i :: 0 <= i < |times| ==> reached <= times[i]
    ensures AdmittedWithin(r, current, times, from) <= Room(r, current, reached, from)
    decreases |times|
  {
    if times != [] {
      var step := EvaluateFixedWindowReservation(current, times[0], r);
      StepsAgree(r, current, times[0]);
      AdmittedFitsRoom(r, Some(step.record), times[1..], times[0], from);
      if times[0] >= from + r.windowMs { NoneAfter(r, Some(step.record), times[1..], from); }
    }
  }

  /** What an interval of the window's length can see admitted: twice the limit less one, but only the limit
      when the window is one millisecond, which leaves no room before the next. */
  function Most(r: Rule): int {
    if r.windowMs == 1 then r.limit else 2 * r.limit - 1
  }

  lemma {:induction false} ShortFitsLimit(r: Rule, current: Option<Window>, times: seq<int>, reached: int, from: int)
    requires IsRule(r) && r.windowMs == 1 && IsStored(r, current) && Nondecreasing(times)
    requires current.None? || current.value.startedAt <= reached
    requires forall i :: 0 <= i < |times| ==> reached <= times[i]
    ensures AdmittedWithin(r, current, times, from)
         <= if current.None? || current.value.startedAt < from then r.limit else r.limit - current.value.count
    decreases |times|
  {
    if times != [] {
      var step := EvaluateFixedWindowReservation(current, times[0], r);
      StepsAgree(r, current, times[0]);
      ShortFitsLimit(r, Some(step.record), times[1..], times[0], from);
      if times[0] >= from + 1 { NoneAfter(r, Some(step.record), times[1..], from); }
    }
  }

  /** No interval of the window's length admits more than that. */
  lemma AtMostTwiceTheLimit(r: Rule, times: seq<int>, from: int)
    requires IsRule(r) && Nondecreasing(times)
    ensures AdmittedWithin(r, None, times, from) <= Most(r) < 2 * r.limit
  {
    if times != [] {
      AdmittedFitsRoom(r, None, times, times[0], from);
      if r.windowMs == 1 { ShortFitsLimit(r, None, times, times[0], from); }
    }
  }

  function Repeat(time: int, n: nat): seq<int> {
    if n == 0 then [] else [time] + Repeat(time, n - 1)
  }

  lemma {:induction false} BurstIsAdmitted(r: Rule, w: Window, time: int, n: nat, rest: seq<int>, from: int)
    requires IsRule(r) && w.startedAt <= time < w.startedAt + r.windowMs && 1 <= w.count && w.count + n <= r.limit
    requires from <= time < from + r.windowMs
    ensures AdmittedWithin(r, Some(w), Repeat(time, n) + rest, from)
         == n + AdmittedWithin(r, Some(w.(count := w.count + n)), rest, from)
    decreases n
  {
    if n == 0 {
      assert Repeat(time, n) + rest == rest;
    } else {
      assert (Repeat(time, n) + rest)[0] == time && (Repeat(time, n) + rest)[1..] == Repeat(time, n - 1) + rest;
      BurstIsAdmitted(r, w.(count := w.count + 1), time, n - 1, rest, from);
    }
  }

  /** One request opens a window, the rest of the limit comes at its very end, and the limit again at the
      start of the next; in a window of one millisecond there is only the limit. */
  function Burst(r: Rule): seq<int> {
    if r.limit < 1 || r.windowMs < 1 then []
    else if r.windowMs == 1 then [0] + Repeat(0, r.limit - 1)
    else
      [0] + (Repeat(r.windowMs - 1, r.limit - 1) + ([r.windowMs] + Repeat(r.windowMs, r.limit - 1)))
  }

  /** And that many are reached. */
  lemma TwiceTheLimitIsReached(r: Rule)
    requires IsRule(r)
    ensures AdmittedWithin(r, None, Burst(r), r.windowMs - 1) == Most(r)
  {
    var end := r.windowMs;
    if end == 1 {
      assert Burst(r)[1..] == Repeat(0, r.limit - 1) + [];
      BurstIsAdmitted(r, Window(0, 1), 0, r.limit - 1, [], 0);
    } else {
      var second := [end] + Repeat(end, r.limit - 1);
      var first := Repeat(end - 1, r.limit - 1) + second;
      assert Burst(r)[1..] == first;
      BurstIsAdmitted(r, Window(0, 1), end - 1, r.limit - 1, second, end - 1);
      assert second[1..] == Repeat(end, r.limit - 1) + [];
      BurstIsAdmitted(r, Window(end, 1), end, r.limit - 1, [], end - 1);
    }
  }

  // ----- the limiter as the program stores it -----

  datatype LimitDecision = Unlimited | Limited(allowed: bool, count: int, limit: int, resetAt: int) | InvalidRule

  class CapabilityRateLimiter {
    const limits: map<string, Rule>
    var buckets: map<string, Window>

    constructor (limits: map<string, Rule>)
      ensures this.limits == limits && buckets == map[]
    {
      this.limits, buckets := limits, map[];
    }

    function Bucket(capability: string): Option<Window>
      reads this
    {
      if capability in buckets then Some(buckets[capability]) else None
    }

    /** Counts one call of the capability; a refused call and one without a limit store nothing. */
    method CheckRateLimit(capability: string, at: int) returns (d: LimitDecision)
      modifies this
      ensures capability !in limits ==> d == Unlimited && buckets == old(buckets)
      ensures capability in limits && !IsRule(limits[capability]) ==> d == InvalidRule && buckets == old(buckets)
      ensures capability in limits && IsRule(limits[capability]) ==>
        var check := CheckCapability(old(Bucket(capability)), at, limits[capability]);
        && d == Limited(check.allowed, check.count, limits[capability].limit, check.resetAt)
        && Bucket(capability) == check.stored
      ensures forall other :: other != capability ==> Bucket(other) == old(Bucket(other))
    {
      if capability !in limits { return Unlimited; }
      var rule := limits[capability];
      if !IsRule(rule) { return InvalidRule; }
      var bucket := Window(at, 0);
      if capability in buckets {
        var current := buckets[capability];
        if at - current.startedAt < rule.windowMs { bucket := current; }
      }
      var next := bucket.(count := bucket.count + 1);
      var resetAt := bucket.startedAt + rule.windowMs;
      if next.count > rule.limit { return Limited(false, next.count, rule.limit, resetAt); }
      buckets := buckets[capability := next];
      return Limited(true, next.count, rule.limit, resetAt);
    }
  }
}
