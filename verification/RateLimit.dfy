/** app/ratelimit/checker.py: two sliding windows over one user's job creation times. */
module RateLimit {
  import opened Tables

  const BURST_WINDOW: int := 60 * SECOND
  const DAILY_WINDOW: int := 86_400 * SECOND

  datatype Limits = Limits(daily: int, burst: int)

  datatype Window = Burst | Daily

  /** Fault is the TypeError of adding a duration to the missing minimum of an empty window. */
  datatype Decision = Allow | Reject(window: Window, retryAfter: int) | Fault

  function Span(w: Window): int {
    if w.Burst? then BURST_WINDOW else DAILY_WINDOW
  }

  function LimitOf(limits: Limits, w: Window): int {
    if w.Burst? then limits.burst else limits.daily
  }

  /** COUNT(*) of created_at > start. */
  function CountAfter(created: seq<int>, start: int): nat
    decreases |created|
  {
    if created == [] then 0
    else CountAfter(created[..|created| - 1], start) + (if created[|created| - 1] > start then 1 else 0)
  }

  /** MIN(created_at) over created_at > start. */
  function OldestAfter(created: seq<int>, start: int): (o: int)
    requires CountAfter(created, start) > 0
    ensures o > start && o in created
    ensures forall i :: 0 <= i < |created| && created[i] > start ==> o <= created[i]
    decreases |created|
  {
    var last := created[|created| - 1];
    var init := created[..|created| - 1];
    if CountAfter(init, start) == 0 then NoneAfter(init, start); last
    else if last > start && last < OldestAfter(init, start) then last
    else OldestAfter(init, start)
  }

  lemma {:induction false} NoneAfter(created: seq<int>, start: int)
    requires CountAfter(created, start) == 0
    ensures forall i :: 0 <= i < |created| ==> created[i] <= start
    decreases |created|
  {
    if created != [] { NoneAfter(created[..|created| - 1], start); }
  }

  /** math.ceil of a duration in whole seconds. */
  function CeilSeconds(us: int): (s: int)
    ensures (s - 1) * SECOND < us <= s * SECOND
  {
    -((-us) / SECOND)
  }

  predicate Admitted(created: seq<int>, now: int, w: Window, limits: Limits) {
    CountAfter(created, now - Span(w)) < LimitOf(limits, w)
  }

  /** max(1, ceil(oldest + window - now)) */
  function RetryAfter(created: seq<int>, now: int, w: Window): int
    requires CountAfter(created, now - Span(w)) > 0
  {
    var s := CeilSeconds(OldestAfter(created, now - Span(w)) + Span(w) - now);
    if s > 1 then s else 1
  }

  function Refuse(created: seq<int>, now: int, w: Window): Decision {
    if CountAfter(created, now - Span(w)) == 0 then Fault
    else Reject(w, RetryAfter(created, now, w))
  }

  /** check_rate_limit: the burst window first, then the daily one. */
  function CheckRateLimit(created: seq<int>, limits: Limits, now: int): Decision {
    if !Admitted(created, now, Burst, limits) then Refuse(created, now, Burst)
    else if !Admitted(created, now, Daily, limits) then Refuse(created, now, Daily)
    else Allow
  }

  /** The exact verdicts: a create is allowed if and only if fewer than the limit were created in the
      last minute and in the last 24 hours; a full minute is reported before a full day, and the
      window that refuses is never empty. */
  lemma VerdictExactly(created: seq<int>, limits: Limits, now: int)
    ensures
      var d := CheckRateLimit(created, limits, now);
      var minute := CountAfter(created, now - 60 * 1_000_000);
      var day := CountAfter(created, now - 24 * 60 * 60 * 1_000_000);
      (d.Allow? <==> minute < limits.burst && day < limits.daily)
      && ((d.Reject? && d.window == Burst) <==> minute >= limits.burst && minute > 0)
      && ((d.Reject? && d.window == Daily) <==> minute < limits.burst && day >= limits.daily && day > 0)
  {
  }

  // ---------------------------------------------------------------- counting

  /** Creations with lo < time <= hi. */
  function CountIn(created: seq<int>, lo: int, hi: int): nat
    decreases |created|
  {
    if created == [] then 0
    else CountIn(created[..|created| - 1], lo, hi)
         + (if lo < created[|created| - 1] <= hi then 1 else 0)
  }

  lemma {:induction false} CountSplits(created: seq<int>, lo: int, hi: int)
    requires lo <= hi
    ensures CountAfter(created, lo) == CountIn(created, lo, hi) + CountAfter(created, hi)
    decreases |created|
  {
    if created != [] { CountSplits(created[..|created| - 1], lo, hi); }
  }

  lemma {:induction false} CountInWithin(created: seq<int>, lo: int, hi: int, lo2: int)
    requires lo2 <= lo
    ensures CountIn(created, lo, hi) <= CountAfter(created, lo2)
    decreases |created|
  {
    if created != [] { CountInWithin(created[..|created| - 1], lo, hi, lo2); }
  }

  lemma {:induction false} CountInEmpty(created: seq<int>, lo: int, hi: int)
    requires forall i :: 0 <= i < |created| && created[i] > lo ==> created[i] > hi
    ensures CountIn(created, lo, hi) == 0
    decreases |created|
  {
    if created != [] { CountInEmpty(created[..|created| - 1], lo, hi); }
  }

  lemma {:induction false} CountInMember(created: seq<int>, lo: int, hi: int, i: nat)
    requires i < |created| && lo < created[i] <= hi
    ensures CountIn(created, lo, hi) > 0
    decreases |created|
  {
    if i < |created| - 1 { CountInMember(created[..|created| - 1], lo, hi, i); }
  }

  // ---------------------------------------------------------------- serial histories

  /** Every creation passed the checker against the ones before it. checked[i] is the time the
      checker read, which is not after the row's own created_at; rows are created in order. */
  ghost predicate Serial(created: seq<int>, checked: seq<int>, limits: Limits) {
    |created| == |checked|
    && (forall i :: 0 <= i < |created| ==> checked[i] <= created[i])
    && (forall i, k :: 0 <= i < k < |created| ==> created[i] <= created[k])
    && (forall i :: 0 <= i < |created| ==> CheckRateLimit(created[..i], limits, checked[i]).Allow?)
  }

  lemma SerialPrefix(created: seq<int>, checked: seq<int>, limits: Limits, n: nat)
    requires Serial(created, checked, limits) && n < |created|
    ensures Serial(created[..n], checked[..n], limits)
  {
    forall i | 0 <= i < n ensures CheckRateLimit(created[..n][..i], limits, checked[..n][i]).Allow? {
      assert created[..n][..i] == created[..i];
      assert CheckRateLimit(created[..i], limits, checked[i]).Allow?;
    }
  }

  /** One more creation, checked at a time not after it. */
  lemma WindowStep(init: seq<int>, last: int, at: int, limits: Limits, w: Window, t: int)
    requires Admitted(init, at, w, limits) && at <= last && CountIn(init, t - Span(w), t) <= LimitOf(limits, w)
    ensures CountIn(init + [last], t - Span(w), t) <= LimitOf(limits, w)
  {
    assert (init + [last])[..|init|] == init;
    if last <= t { CountInWithin(init, t - Span(w), t, at - Span(w)); }
  }

  lemma {:induction false} WindowHolds(created: seq<int>, checked: seq<int>, limits: Limits, w: Window, t: int)
    requires Serial(created, checked, limits) && 0 <= LimitOf(limits, w)
    ensures CountIn(created, t - Span(w), t) <= LimitOf(limits, w)
    decreases |created|
  {
    if created != [] {
      var n := |created| - 1;
      SerialPrefix(created, checked, limits, n);
      WindowHolds(created[..n], checked[..n], limits, w, t);
      assert CheckRateLimit(created[..n], limits, checked[n]).Allow?;
      WindowStep(created[..n], created[n], checked[n], limits, w, t);
      assert created == created[..n] + [created[n]];
    }
  }

  /** If every create passes the checker serially, every 60-second and every 24-hour window of the
      whole history, wherever it ends, holds at most its limit of jobs. */
  lemma WindowsAreCapped(created: seq<int>, checked: seq<int>, limits: Limits, t: int)
    requires Serial(created, checked, limits) && 1 <= limits.burst && 1 <= limits.daily
    ensures CountIn(created, t - 60 * 1_000_000, t) <= limits.burst
    ensures CountIn(created, t - 24 * 60 * 60 * 1_000_000, t) <= limits.daily
  {
    WindowHolds(created, checked, limits, Burst, t);
    WindowHolds(created, checked, limits, Daily, t);
  }

  // ---------------------------------------------------------------- retry-after

  /** Before the hint the window is exactly as full as now; at the hint some creation has left it. */
  lemma RetryIsFirstChange(created: seq<int>, now: int, w: Window, k: int)
    requires CountAfter(created, now - Span(w)) > 0 && 0 <= k
    ensures k < RetryAfter(created, now, w) ==> CountAfter(created, now + k * SECOND - Span(w)) == CountAfter(created, now - Span(w))
    ensures k == RetryAfter(created, now, w) ==> CountAfter(created, now + k * SECOND - Span(w)) < CountAfter(created, now - Span(w))
  {
    var lo, hi := now - Span(w), now + k * SECOND - Span(w);
    var oldest := OldestAfter(created, lo);
    CountSplits(created, lo, hi);
    if k < RetryAfter(created, now, w) {
      CountInEmpty(created, lo, hi);
    } else if k == RetryAfter(created, now, w) {
      var i :| 0 <= i < |created| && created[i] == oldest;
      CountInMember(created, lo, hi, i);
    }
  }

  /** Creations of the window that are no newer than the oldest one by more than the fraction of a
      second that rounding the hint up adds: those that expire in the oldest one's whole second. */
  function ExpiringTogether(created: seq<int>, now: int, w: Window): nat
    requires CountAfter(created, now - Span(w)) > 0
  {
    var oldest := OldestAfter(created, now - Span(w));
    CountIn(created, now - Span(w), oldest + (now - oldest) % SECOND)
  }

  /** Where the window starts at the hint. */
  lemma HintInstant(created: seq<int>, now: int, w: Window)
    requires CountAfter(created, now - Span(w)) > 0
    ensures
      var oldest := OldestAfter(created, now - Span(w));
      now + RetryAfter(created, now, w) * SECOND - Span(w) == oldest + (now - oldest) % SECOND
  {
  }

  lemma WindowReopens(created: seq<int>, limits: Limits, now: int, w: Window)
    requires CountAfter(created, now - Span(w)) > 0 && !Admitted(created, now, w, limits)
    ensures
      Admitted(created, now + RetryAfter(created, now, w) * SECOND, w, limits)
      <==> ExpiringTogether(created, now, w) > CountAfter(created, now - Span(w)) - LimitOf(limits, w)
  {
    HintInstant(created, now, w);
    WindowHint(created, limits, now, w);
  }

  /** For all inputs: the window that refused stays closed until the hint, and if nothing else is
      created it is open at the hint exactly when the creations that expire in the oldest one's
      whole second outnumber the overshoot of the count over the limit. */
  lemma RetryHint(created: seq<int>, limits: Limits, now: int)
    requires CheckRateLimit(created, limits, now).Reject?
    ensures
      var d := CheckRateLimit(created, limits, now);
      CountAfter(created, now - Span(d.window)) > 0 && d.retryAfter >= 1
      && (forall k :: 0 <= k < d.retryAfter ==> !Admitted(created, now + k * SECOND, d.window, limits))
      && (Admitted(created, now + d.retryAfter * SECOND, d.window, limits)
          <==> ExpiringTogether(created, now, d.window) > CountAfter(created, now - Span(d.window)) - LimitOf(limits, d.window))
  {
    var w := CheckRateLimit(created, limits, now).window;
    WindowHint(created, limits, now, w);
    WindowReopens(created, limits, now, w);
  }

  /** A window that is full but not over its limit always reopens at the hint, and not before, with
      no history assumed. */
  lemma FullWindowReopens(created: seq<int>, limits: Limits, now: int)
    requires CheckRateLimit(created, limits, now).Reject?
    requires var w := CheckRateLimit(created, limits, now).window; CountAfter(created, now - Span(w)) == LimitOf(limits, w)
    ensures
      var d := CheckRateLimit(created, limits, now);
      Admitted(created, now + d.retryAfter * SECOND, d.window, limits)
      && forall k :: 0 <= k < d.retryAfter ==> !Admitted(created, now + k * SECOND, d.window, limits)
  {
    WindowHint(created, limits, now, CheckRateLimit(created, limits, now).window);
  }

  lemma WindowHint(created: seq<int>, limits: Limits, now: int, w: Window)
    requires CountAfter(created, now - Span(w)) > 0 && !Admitted(created, now, w, limits)
    ensures
      var s := RetryAfter(created, now, w);
      var expiring := CountIn(created, now - Span(w), now + s * SECOND - Span(w));
      s >= 1 && expiring >= 1
      && (forall k :: 0 <= k < s ==> !Admitted(created, now + k * SECOND, w, limits))
      && (Admitted(created, now + s * SECOND, w, limits) <==> expiring > CountAfter(created, now - Span(w)) - LimitOf(limits, w))
  {
    var s := RetryAfter(created, now, w);
    forall k | 0 <= k < s ensures !Admitted(created, now + k * SECOND, w, limits) {
      RetryIsFirstChange(created, now, w, k);
    }
    RetryIsFirstChange(created, now, w, s);
    CountSplits(created, now - Span(w), now + s * SECOND - Span(w));
  }

  /** In a serial history no window ever holds more than its limit. */
  lemma NeverOver(created: seq<int>, checked: seq<int>, limits: Limits, now: int, w: Window)
    requires Serial(created, checked, limits) && 0 <= LimitOf(limits, w)
    requires forall i :: 0 <= i < |created| ==> created[i] <= now
    ensures CountAfter(created, now - Span(w)) <= LimitOf(limits, w)
  {
    WindowHolds(created, checked, limits, w, now);
    CountSplits(created, now - Span(w), now);
    NoneLater(created, now);
  }

  /** In a serial history the hint is exact: the least whole number of seconds after which the
      window that refused admits again if nothing else is created. */
  lemma RetryIsExact(created: seq<int>, checked: seq<int>, limits: Limits, now: int)
    requires Serial(created, checked, limits) && 1 <= limits.burst && 1 <= limits.daily
    requires forall i :: 0 <= i < |created| ==> created[i] <= now
    requires CheckRateLimit(created, limits, now).Reject?
    ensures
      var d := CheckRateLimit(created, limits, now);
      Admitted(created, now + d.retryAfter * SECOND, d.window, limits)
      && forall k :: 0 <= k < d.retryAfter ==> !Admitted(created, now + k * SECOND, d.window, limits)
  {
    var w := CheckRateLimit(created, limits, now).window;
    NeverOver(created, checked, limits, now, w);
    FullWindowReopens(created, limits, now);
  }

  lemma {:induction false} NoneLater(created: seq<int>, now: int)
    requires forall i :: 0 <= i < |created| ==> created[i] <= now
    ensures CountAfter(created, now) == 0
    decreases |created|
  {
    if created != [] { NoneLater(created[..|created| - 1], now); }
  }

  /** Above the limit (say, after the limit was lowered) the hint can be too short. */
  lemma HintTooShort()
    ensures
      var created := [0, 30 * SECOND];
      var limits := Limits(100, 1);
      CheckRateLimit(created, limits, 40 * SECOND) == Reject(Burst, 20)
      && !Admitted(created, 60 * SECOND, Burst, limits)
  {
    var created := [0, 30 * SECOND];
    assert created[..1] == [0] && [0][..0] == [];
    assert CountAfter([0], -20 * SECOND) == 1 && CountAfter([0], 0) == 0;
    assert CountAfter(created, -20 * SECOND) == 2 && CountAfter(created, 0) == 1;
    var oldest := OldestAfter(created, -20 * SECOND);
    assert created[0] == 0 && oldest <= 0;
    assert oldest == 0;
  }

  /** The checker raises exactly when the first window without a positive limit is empty, so never
      under positive limits. */
  lemma FaultNeedsNoLimit(created: seq<int>, limits: Limits, now: int)
    ensures CheckRateLimit(created, limits, now).Fault? <==>
      (if limits.burst <= 0 then CountAfter(created, now - 60 * 1_000_000) == 0
       else limits.daily <= 0 && CountAfter(created, now - 24 * 60 * 60 * 1_000_000) == 0)
  {
    CountSplits(created, now - DAILY_WINDOW, now - BURST_WINDOW);
  }
}
