/** When the updater next looks for an update by itself: how long it waits after a
    failed check, and how its waits reach the moment a check is due. */
module UpdateSchedule {
  const MINUTE_MS: nat := 60_000
  const HOUR_MS: nat := 60 * MINUTE_MS
  const INITIAL_RETRY_INTERVAL_MS: nat := 5 * MINUTE_MS
  const MAXIMUM_RETRY_INTERVAL_MS: nat := 60 * MINUTE_MS
  const MINIMUM_CHECK_INTERVAL_MINUTES: nat := 5

  function Min(a: int, b: int): int {
    if a <= b then a else b
  }

  function PowerOfTwo(n: nat): (p: nat)
    ensures p > 0
  {
    if n == 0 then 1 else 2 * PowerOfTwo(n - 1)
  }

  lemma {:induction false} PowerOfTwoRises(m: nat, n: nat)
    requires m <= n
    ensures PowerOfTwo(m) <= PowerOfTwo(n)
  {
    if m < n {
      PowerOfTwoRises(m, n - 1);
    }
  }

  /** Doubled for every failure after the first, up to an hour. */
  method AutomaticRetryInterval(failureCount: nat) returns (interval: nat)
    ensures failureCount > 0 ==>
              interval == Min(INITIAL_RETRY_INTERVAL_MS * PowerOfTwo(failureCount - 1), MAXIMUM_RETRY_INTERVAL_MS)
    ensures failureCount == 0 ==> interval == INITIAL_RETRY_INTERVAL_MS
    ensures INITIAL_RETRY_INTERVAL_MS <= interval <= MAXIMUM_RETRY_INTERVAL_MS
  {
    interval := INITIAL_RETRY_INTERVAL_MS;
    var failure := 1;
    while failure < failureCount && interval < MAXIMUM_RETRY_INTERVAL_MS
      invariant 1 <= failure && (failureCount > 0 ==> failure <= failureCount)
      invariant interval == Min(INITIAL_RETRY_INTERVAL_MS * PowerOfTwo(failure - 1), MAXIMUM_RETRY_INTERVAL_MS)
      invariant INITIAL_RETRY_INTERVAL_MS <= interval
      invariant failureCount == 0 ==> failure == 1
    {
      interval := Min(interval * 2, MAXIMUM_RETRY_INTERVAL_MS);
      failure := failure + 1;
    }
    if failure < failureCount {
      PowerOfTwoRises(failure - 1, failureCount - 1);
    }
  }

  /** A last check in the future means the clock was set back. */
  predicate AutomaticCheckDue(lastCheckMs: int, intervalMinutes: nat, nowMs: int) {
    nowMs < lastCheckMs || nowMs - lastCheckMs >= intervalMinutes * MINUTE_MS
  }

  function Bound(low: int, value: int, high: int): int {
    if value < low then low else if value > high then high else value
  }

  function AutomaticCheckDelayMs(lastCheckMs: int, intervalMinutes: nat, nowMs: int): (delay: nat)
    ensures MINUTE_MS <= delay <= HOUR_MS
  {
    if AutomaticCheckDue(lastCheckMs, intervalMinutes, nowMs) then MINUTE_MS
    else Bound(MINUTE_MS, lastCheckMs + intervalMinutes * MINUTE_MS - nowMs, HOUR_MS)
  }

  /** The wait after the `n`th failure in a row. */
  function RetryWait(intervalMinutes: nat, n: nat): nat
    requires n > 0
  {
    Min(INITIAL_RETRY_INTERVAL_MS * PowerOfTwo(n - 1), Min(MAXIMUM_RETRY_INTERVAL_MS, intervalMinutes * MINUTE_MS))
  }

  datatype Timer = Stopped | Armed(ms: nat)

  /** Backoff never retries slower than the interval itself, and every wait is a minute
      at least and an hour at most. */
  method ScheduleAutomaticCheck(
    autoCheck: bool, failures: nat, lastCheckMs: int, intervalMinutes: nat, nowMs: int) returns (timer: Timer)
    requires intervalMinutes >= MINIMUM_CHECK_INTERVAL_MINUTES
    ensures timer.Armed? <==> autoCheck
    ensures autoCheck ==> MINUTE_MS <= timer.ms <= HOUR_MS
    ensures autoCheck && failures > 0 ==> timer.ms == RetryWait(intervalMinutes, failures)
    ensures autoCheck && failures == 0 ==>
              timer.ms == AutomaticCheckDelayMs(lastCheckMs, intervalMinutes, nowMs)
  {
    if !autoCheck {
      return Stopped;
    }
    if failures > 0 {
      var retry := AutomaticRetryInterval(failures);
      return Armed(Min(retry, intervalMinutes * MINUTE_MS));
    }
    return Armed(AutomaticCheckDelayMs(lastCheckMs, intervalMinutes, nowMs));
  }

  /** While the clock only goes forward, a check is due from one interval after the last
      one on; a clock set back makes it due at once. */
  lemma DueFromOneIntervalOn(lastCheckMs: int, intervalMinutes: nat, nowMs: int)
    ensures nowMs >= lastCheckMs ==>
              (AutomaticCheckDue(lastCheckMs, intervalMinutes, nowMs)
               <==> nowMs >= lastCheckMs + intervalMinutes * MINUTE_MS)
    ensures nowMs < lastCheckMs ==> AutomaticCheckDue(lastCheckMs, intervalMinutes, nowMs)
  {
  }

  /** A due check that could not start is asked about again in a minute, any other when it
      falls due, but in a minute at the soonest and in an hour at the latest. */
  lemma WaitsUntilDue(lastCheckMs: int, intervalMinutes: nat, nowMs: int)
    ensures var delay := AutomaticCheckDelayMs(lastCheckMs, intervalMinutes, nowMs);
            var left := lastCheckMs + intervalMinutes * MINUTE_MS - nowMs;
            if AutomaticCheckDue(lastCheckMs, intervalMinutes, nowMs) || left <= 60_000 then delay == 60_000
            else if left >= 3_600_000 then delay == 3_600_000
            else delay == left
  {
  }

  // ----- Retrying checks that fail

  /** How long after the first failure the check is tried again for the `n`th time, when
      every try fails at once and every wake comes on time. */
  function RetryTime(intervalMinutes: nat, n: nat): nat {
    if n == 0 then 0 else RetryTime(intervalMinutes, n - 1) + RetryWait(intervalMinutes, n)
  }

  lemma RetryWaitSettles(intervalMinutes: nat, n: nat)
    requires n >= 5
    ensures RetryWait(intervalMinutes, n) == Min(MAXIMUM_RETRY_INTERVAL_MS, intervalMinutes * MINUTE_MS)
  {
    PowerOfTwoRises(4, n - 1);
    assert PowerOfTwo(4) == 16;
  }

  /** Waits never shrink over a run of failures. */
  lemma RetryWaitsRise(intervalMinutes: nat, m: nat, n: nat)
    requires 0 < m <= n
    ensures RetryWait(intervalMinutes, m) <= RetryWait(intervalMinutes, n)
  {
    PowerOfTwoRises(m - 1, n - 1);
  }

  lemma OneMore(n: nat, x: int)
    requires n > 0
    ensures n * x == (n - 1) * x + x
  {
  }

  lemma FirstFourRetries(intervalMinutes: nat)
    requires intervalMinutes >= MINIMUM_CHECK_INTERVAL_MINUTES
    ensures var interval := intervalMinutes * MINUTE_MS;
            RetryTime(intervalMinutes, 4)
            == 5 * MINUTE_MS + Min(10 * MINUTE_MS, interval) + Min(20 * MINUTE_MS, interval)
               + Min(40 * MINUTE_MS, interval)
  {
    assert PowerOfTwo(0) == 1 && PowerOfTwo(1) == 2 && PowerOfTwo(2) == 4 && PowerOfTwo(3) == 8;
    assert RetryTime(intervalMinutes, 1) == RetryWait(intervalMinutes, 1);
    assert RetryTime(intervalMinutes, 2) == RetryWait(intervalMinutes, 1) + RetryWait(intervalMinutes, 2);
  }

  /** Over any run of failures: the first four retries come 5, 10, 20 and 40 minutes after
      the failure before, none waiting longer than the interval, and from then on one
      comes every hour, or every interval when that is shorter. */
  lemma {:induction false} RetriesSettle(intervalMinutes: nat, n: nat)
    requires intervalMinutes >= MINIMUM_CHECK_INTERVAL_MINUTES && n >= 4
    ensures var interval := intervalMinutes * MINUTE_MS;
            RetryTime(intervalMinutes, n)
            == 5 * MINUTE_MS + Min(10 * MINUTE_MS, interval) + Min(20 * MINUTE_MS, interval)
               + Min(40 * MINUTE_MS, interval) + (n - 4) * Min(HOUR_MS, interval)
  {
    if n > 4 {
      RetriesSettle(intervalMinutes, n - 1);
      RetryWaitSettles(intervalMinutes, n);
      OneMore(n - 4, Min(HOUR_MS, intervalMinutes * MINUTE_MS));
    } else {
      FirstFourRetries(intervalMinutes);
    }
  }

  /** However many fail, they are retried no more often than every five minutes and no less
      often than every hour, or every interval when that is shorter. */
  lemma {:induction false} RetriesKeepComing(intervalMinutes: nat, n: nat)
    requires intervalMinutes >= MINIMUM_CHECK_INTERVAL_MINUTES
    ensures n * INITIAL_RETRY_INTERVAL_MS <= RetryTime(intervalMinutes, n)
    ensures RetryTime(intervalMinutes, n) <= n * Min(HOUR_MS, intervalMinutes * MINUTE_MS)
  {
    if n > 0 {
      RetriesKeepComing(intervalMinutes, n - 1);
      OneMore(n, INITIAL_RETRY_INTERVAL_MS);
      OneMore(n, Min(HOUR_MS, intervalMinutes * MINUTE_MS));
    }
  }

  // ----- Waking until a check is due

  /** The clock at the `n`th wake: each comes after the delay asked for at the one before
      it, late by what `late` says. */
  function WakeTime(lastCheckMs: int, intervalMinutes: nat, startMs: int, late: seq<nat>, n: nat): int
    requires n <= |late|
  {
    if n == 0 then startMs
    else
      var before := WakeTime(lastCheckMs, intervalMinutes, startMs, late, n - 1);
      before + AutomaticCheckDelayMs(lastCheckMs, intervalMinutes, before) + late[n - 1]
  }

  predicate DueAt(lastCheckMs: int, intervalMinutes: nat, startMs: int, late: seq<nat>, n: nat)
    requires n <= |late|
  {
    AutomaticCheckDue(lastCheckMs, intervalMinutes, WakeTime(lastCheckMs, intervalMinutes, startMs, late, n))
  }

  /** The wakes it takes: one for every hour left, and one for the rest. */
  function WakesLeft(lastCheckMs: int, intervalMinutes: nat, nowMs: int): nat {
    if AutomaticCheckDue(lastCheckMs, intervalMinutes, nowMs) then 0
    else (lastCheckMs + intervalMinutes * MINUTE_MS - nowMs + HOUR_MS - 1) / HOUR_MS
  }

  lemma EveryWakeComesNearer(lastCheckMs: int, intervalMinutes: nat, nowMs: int, late: nat)
    requires !AutomaticCheckDue(lastCheckMs, intervalMinutes, nowMs)
    ensures var next := nowMs + AutomaticCheckDelayMs(lastCheckMs, intervalMinutes, nowMs) + late;
            && WakesLeft(lastCheckMs, intervalMinutes, next) < WakesLeft(lastCheckMs, intervalMinutes, nowMs)
            && next < lastCheckMs + intervalMinutes * MINUTE_MS + MINUTE_MS + late
  {
  }

  /** As many wakes as there are hours left are enough. */
  lemma {:induction false} WakesRunOut(
    lastCheckMs: int, intervalMinutes: nat, startMs: int, late: seq<nat>, n: nat)
    requires n <= |late|
    ensures (exists j :: 0 <= j <= n && DueAt(lastCheckMs, intervalMinutes, startMs, late, j))
            || WakesLeft(lastCheckMs, intervalMinutes, WakeTime(lastCheckMs, intervalMinutes, startMs, late, n))
               <= WakesLeft(lastCheckMs, intervalMinutes, startMs) - n
  {
    if n > 0 {
      WakesRunOut(lastCheckMs, intervalMinutes, startMs, late, n - 1);
      if !DueAt(lastCheckMs, intervalMinutes, startMs, late, n - 1) {
        EveryWakeComesNearer(lastCheckMs, intervalMinutes,
                             WakeTime(lastCheckMs, intervalMinutes, startMs, late, n - 1), late[n - 1]);
      }
    }
  }

  /** While wakes come on time, each takes off exactly one of those left. */
  lemma {:induction false} TimelyWakesCount(
    lastCheckMs: int, intervalMinutes: nat, startMs: int, late: seq<nat>, n: nat)
    requires n <= |late| && n <= WakesLeft(lastCheckMs, intervalMinutes, startMs)
    requires forall j :: 0 <= j < n ==> late[j] == 0
    ensures WakesLeft(lastCheckMs, intervalMinutes, WakeTime(lastCheckMs, intervalMinutes, startMs, late, n))
         == WakesLeft(lastCheckMs, intervalMinutes, startMs) - n
  {
    if n > 0 {
      TimelyWakesCount(lastCheckMs, intervalMinutes, startMs, late, n - 1);
    }
  }

  /** On time, a check falls due at exactly that wake and at none before. */
  lemma TimelyWakesAreExact(lastCheckMs: int, intervalMinutes: nat, startMs: int, late: seq<nat>, n: nat)
    requires n <= |late| && n <= WakesLeft(lastCheckMs, intervalMinutes, startMs)
    requires forall j :: 0 <= j < |late| ==> late[j] == 0
    ensures DueAt(lastCheckMs, intervalMinutes, startMs, late, n)
       <==> n == WakesLeft(lastCheckMs, intervalMinutes, startMs)
  {
    TimelyWakesCount(lastCheckMs, intervalMinutes, startMs, late, n);
  }

  /** On a clock that only goes forward, a check falls due within as many wakes as hours
      are left, and at the first wake that finds it due it is less than a minute past
      due, not counting how late that wake itself came. */
  lemma DueCheckIsReached(lastCheckMs: int, intervalMinutes: nat, startMs: int, late: seq<nat>) returns (k: nat)
    requires !AutomaticCheckDue(lastCheckMs, intervalMinutes, startMs)
    requires |late| >= WakesLeft(lastCheckMs, intervalMinutes, startMs)
    ensures 0 < k <= WakesLeft(lastCheckMs, intervalMinutes, startMs)
    ensures DueAt(lastCheckMs, intervalMinutes, startMs, late, k)
    ensures forall j :: 0 <= j < k ==> !DueAt(lastCheckMs, intervalMinutes, startMs, late, j)
    ensures WakeTime(lastCheckMs, intervalMinutes, startMs, late, k)
            < lastCheckMs + intervalMinutes * MINUTE_MS + MINUTE_MS + late[k - 1]
  {
    var enough := WakesLeft(lastCheckMs, intervalMinutes, startMs);
    WakesRunOut(lastCheckMs, intervalMinutes, startMs, late, enough);
    assert exists j :: 0 <= j <= enough && DueAt(lastCheckMs, intervalMinutes, startMs, late, j) by {
      if !DueAt(lastCheckMs, intervalMinutes, startMs, late, enough) {
        assert WakesLeft(lastCheckMs, intervalMinutes,
                         WakeTime(lastCheckMs, intervalMinutes, startMs, late, enough)) > 0;
      }
    }
    assert !DueAt(lastCheckMs, intervalMinutes, startMs, late, 0);
    k := 1;
    while !DueAt(lastCheckMs, intervalMinutes, startMs, late, k)
      invariant 0 < k <= enough
      invariant forall j :: 0 <= j < k ==> !DueAt(lastCheckMs, intervalMinutes, startMs, late, j)
      decreases enough - k
    {
      k := k + 1;
    }
    assert !DueAt(lastCheckMs, intervalMinutes, startMs, late, k - 1);
    EveryWakeComesNearer(lastCheckMs, intervalMinutes,
                         WakeTime(lastCheckMs, intervalMinutes, startMs, late, k - 1), late[k - 1]);
  }
}
