/** Streaks of active days and the words each app received. Days are Julian day numbers. */
module Streaks {
  import opened Wrappers

  /** The days of `days` up to `day`, which bounds a walk back from it. */
  function UpTo(days: set<int>, day: int): set<int> {
    set d | d in days && d <= day
  }

  /** The length of the run of active days that ends on `day`. */
  function RunLength(days: set<int>, day: int): (n: nat)
    ensures n == 0 <==> day !in days
    decreases UpTo(days, day)
  {
    if day in days then
      assert UpTo(days, day - 1) < UpTo(days, day) by {
        assert day in UpTo(days, day) && day !in UpTo(days, day - 1);
      }
      1 + RunLength(days, day - 1)
    else 0
  }

  /** It is a run, and the day before it is idle, so no longer one ends there. */
  lemma {:induction false} RunLengthIsMaximal(days: set<int>, day: int)
    ensures forall d :: day - RunLength(days, day) < d <= day ==> d in days
    ensures day - RunLength(days, day) !in days
    decreases UpTo(days, day)
  {
    if day in days {
      assert UpTo(days, day - 1) < UpTo(days, day) by {
        assert day in UpTo(days, day) && day !in UpTo(days, day - 1);
      }
      RunLengthIsMaximal(days, day - 1);
    }
  }

  /** `n` is the length of the longest run that ends by `today`, and `end` the first
      day one that long ends, or nothing when no day is active. */
  ghost predicate IsBestStreak(days: set<int>, today: int, n: nat, end: Option<int>) {
    && (forall day :: day <= today ==> RunLength(days, day) <= n)
    && (n == 0 <==> end == None)
    && (end.Some? ==>
          && end.value <= today && RunLength(days, end.value) == n
          && forall day :: day < end.value ==> RunLength(days, day) < n)
  }

  /** A streak survives until the end of today, so an idle today does not break it. */
  function CurrentStreak(days: set<int>, today: int): nat {
    RunLength(days, if today in days then today else today - 1)
  }

  ghost predicate IsLastActive(days: set<int>, today: int, day: int) {
    day in days && day <= today && forall d :: d in days && d <= today ==> d <= day
  }

  /** What is shown of the streak that broke: the run that ended on the last active
      day, and the first idle day after it. */
  ghost predicate IsBrokenStreak(days: set<int>, today: int, length: nat, ended: Option<int>) {
    if CurrentStreak(days, today) == 0 && exists day :: IsLastActive(days, today, day) then
      ended.Some? && IsLastActive(days, today, ended.value - 1) && length == RunLength(days, ended.value - 1)
    else length == 0 && ended == None
  }

  lemma CurrentNeverExceedsBest(days: set<int>, today: int, n: nat, end: Option<int>)
    requires IsBestStreak(days, today, n, end)
    ensures CurrentStreak(days, today) <= n
    ensures end == Some(today) ==> CurrentStreak(days, today) == n
  {
    assert RunLength(days, today) <= n && RunLength(days, today - 1) <= n;
  }

  /** With no current streak the broken one ended before yesterday. */
  lemma BrokenStreakEndedEarlier(days: set<int>, today: int, length: nat, ended: Option<int>)
    requires IsBrokenStreak(days, today, length, ended) && ended.Some?
    ensures ended.value < today && length > 0 && ended.value !in days
  {
    assert today !in days && today - 1 !in days;
    var last := ended.value - 1;
    assert last in days && last < today - 1;
    assert last + 1 in days ==> last + 1 <= last;
  }

  // ----- What the streaks are, day by day

  predicate AllActive(days: set<int>, from: int, to: int) {
    forall d :: from <= d <= to ==> d in days
  }

  /** Every stretch of active days fits into the run that ends with it. */
  lemma StretchFits(days: set<int>, from: int, to: int)
    requires from <= to && AllActive(days, from, to)
    ensures to - from + 1 <= RunLength(days, to)
  {
    RunLengthIsMaximal(days, to);
  }

  /** The current streak is the stretch of active days up to today, or up to yesterday
      while today is idle, that no earlier day would lengthen. */
  lemma CurrentStreakIsStretch(days: set<int>, today: int)
    ensures var n, end := CurrentStreak(days, today), if today in days then today else today - 1;
            AllActive(days, end - n + 1, end) && end - n !in days
  {
    RunLengthIsMaximal(days, if today in days then today else today - 1);
  }

  /** The best streak is a stretch of active days up to its end, no stretch by today is
      longer, and none as long ended earlier. */
  lemma BestStreakIsLongestStretch(days: set<int>, today: int, n: nat, end: Option<int>, from: int, to: int)
    requires IsBestStreak(days, today, n, end)
    ensures from <= to <= today && AllActive(days, from, to) ==>
              to - from + 1 <= n && (to - from + 1 == n ==> end.Some? && end.value <= to)
    ensures end.Some? ==> n > 0 && end.value <= today && AllActive(days, end.value - n + 1, end.value)
    ensures end.None? ==> forall d :: d in days ==> d > today
  {
    if from <= to <= today && AllActive(days, from, to) {
      StretchFits(days, from, to);
    }
    if end.Some? {
      RunLengthIsMaximal(days, end.value);
    } else {
      forall d | d in days && d <= today ensures RunLength(days, d) > 0 {
      }
    }
  }

  /** The broken streak is shown when today and yesterday are idle and some day before was
      not: the longest stretch up to the last active day, and the day after it. */
  lemma BrokenStreakIsLastStretch(days: set<int>, today: int, length: nat, ended: Option<int>)
    requires IsBrokenStreak(days, today, length, ended)
    ensures ended.Some? <==> today !in days && today - 1 !in days && exists d :: d in days && d < today
    ensures ended.Some? ==>
              && AllActive(days, ended.value - length, ended.value - 1) && ended.value - length - 1 !in days
              && forall d :: ended.value <= d <= today ==> d !in days
  {
    if day :| day in days && day <= today {
      var last := LastActiveAbove(days, today, day);
      assert IsLastActive(days, today, last);
    }
    if ended.Some? {
      RunLengthIsMaximal(days, ended.value - 1);
    }
  }

  lemma {:induction false} LastActiveAbove(days: set<int>, today: int, day: int) returns (last: int)
    requires day in days && day <= today
    ensures IsLastActive(days, today, last)
    decreases today - day
  {
    if later :| later in days && day < later <= today {
      last := LastActiveAbove(days, today, later);
    } else {
      last := day;
    }
  }

  predicate StrictlyRising(keys: seq<int>) {
    forall i, j :: 0 <= i < j < |keys| ==> keys[i] < keys[j]
  }

  function DaysOf(keys: seq<int>): set<int> {
    set k | k in keys
  }

  /** The streak fields of the summary, filled in place. */
  class StreakSummary {
    var currentStreak: nat
    var bestStreak: nat
    var bestStreakEnd: Option<int>
    var bestStreakEndsToday: bool
    var brokenStreakLength: nat
    var brokenStreakEnded: Option<int>

    constructor ()
      ensures currentStreak == bestStreak == brokenStreakLength == 0
      ensures bestStreakEnd == None && brokenStreakEnded == None && !bestStreakEndsToday
    {
      currentStreak, bestStreak, brokenStreakLength := 0, 0, 0;
      bestStreakEnd, brokenStreakEnded, bestStreakEndsToday := None, None, false;
    }

    /** `keys` are the active days in order, as the source's map walks them. */
    method SummarizeStreaks(keys: seq<int>, today: int)
      requires StrictlyRising(keys)
      requires currentStreak == bestStreak == brokenStreakLength == 0
      requires bestStreakEnd == None && brokenStreakEnded == None
      modifies this
      ensures currentStreak == CurrentStreak(DaysOf(keys), today)
      ensures IsBestStreak(DaysOf(keys), today, bestStreak, bestStreakEnd)
      ensures bestStreakEndsToday <==> bestStreakEnd == Some(today)
      ensures IsBrokenStreak(DaysOf(keys), today, brokenStreakLength, brokenStreakEnded)
    {
      ghost var days := DaysOf(keys);
      var start := if today in keys then today else today - 1;
      currentStreak := CountBack(keys, start);
      var previous := FindBest(keys, today);
      bestStreakEndsToday := bestStreak > 0 && bestStreakEnd == Some(today);
      if currentStreak == 0 && previous.Some? {
        brokenStreakLength := CountBack(keys, previous.value);
        brokenStreakEnded := Some(previous.value + 1);
        assert IsLastActive(days, today, previous.value);
      }
    }

    /** Walks back from `start` while the days are active. */
    method CountBack(keys: seq<int>, start: int) returns (n: nat)
      ensures n == RunLength(DaysOf(keys), start)
    {
      ghost var days := DaysOf(keys);
      n := 0;
      var day := start;
      while day in keys
        invariant RunLength(days, start) == n + RunLength(days, day)
        decreases UpTo(days, day)
      {
        assert UpTo(days, day - 1) < UpTo(days, day) by {
          assert day in UpTo(days, day) && day !in UpTo(days, day - 1);
        }
        n, day := n + 1, day - 1;
      }
    }

    /** The scan over the active days up to today; `previous` is the last of them. */
    method FindBest(keys: seq<int>, today: int) returns (previous: Option<int>)
      requires StrictlyRising(keys) && bestStreak == 0 && bestStreakEnd == None
      modifies `bestStreak, `bestStreakEnd
      ensures IsBestStreak(DaysOf(keys), today, bestStreak, bestStreakEnd)
      ensures match previous
              case None => forall k :: k in keys ==> k > today
              case Some(day) => IsLastActive(DaysOf(keys), today, day)
    {
      ghost var days := DaysOf(keys);
      var run := 0;
      previous := None;
      var i := 0;
      while i < |keys| && keys[i] <= today
        invariant i <= |keys|
        invariant previous == if i == 0 then None else Some(keys[i - 1])
        invariant i > 0 ==> keys[i - 1] <= today && run == RunLength(days, keys[i - 1])
        invariant IsBestAmong(days, keys[..i], bestStreak, bestStreakEnd)
      {
        var key := keys[i];
        ScanStep(keys, i, bestStreak, bestStreakEnd);
        run := if previous.Some? && key - previous.value == 1 then run + 1 else 1;
        previous := Some(key);
        if run > bestStreak {
          bestStreak := run;
          bestStreakEnd := Some(key);
        }
        i := i + 1;
      }
      BestAmongIsBest(keys, today, i, bestStreak, bestStreakEnd);
    }
  }

  /** Best among the runs that end on the days looked at so far. */
  ghost predicate IsBestAmong(days: set<int>, seen: seq<int>, n: nat, end: Option<int>) {
    && (forall day :: day in seen ==> RunLength(days, day) <= n)
    && (n == 0 <==> end == None) && (n == 0 <==> seen == [])
    && (end.Some? ==>
          && end.value in seen && RunLength(days, end.value) == n
          && forall day :: day in seen && day < end.value ==> RunLength(days, day) < n)
  }

  lemma BestAmongGrows(days: set<int>, seen: seq<int>, key: int, n: nat, end: Option<int>)
    requires IsBestAmong(days, seen, n, end) && key in days && forall day :: day in seen ==> day < key
    ensures var run := RunLength(days, key);
            if run > n then IsBestAmong(days, seen + [key], run, Some(key))
            else IsBestAmong(days, seen + [key], n, end)
  {
    assert forall day :: day in seen + [key] <==> day in seen || day == key;
  }

  /** The run that ends on an active day grows from the active day before it, when
      that one is next to it. */
  lemma RunAtKey(keys: seq<int>, i: nat)
    requires StrictlyRising(keys) && i < |keys|
    ensures RunLength(DaysOf(keys), keys[i])
         == if i > 0 && keys[i] - keys[i - 1] == 1 then RunLength(DaysOf(keys), keys[i - 1]) + 1 else 1
  {
    var days := DaysOf(keys);
    if !(i > 0 && keys[i] - keys[i - 1] == 1) {
      if j :| 0 <= j < |keys| && keys[j] == keys[i] - 1 {
        assert j < i;
      }
      assert keys[i] - 1 !in days;
    }
  }

  /** One key further along the scan. */
  lemma ScanStep(keys: seq<int>, i: nat, n: nat, end: Option<int>)
    requires StrictlyRising(keys) && i < |keys| && IsBestAmong(DaysOf(keys), keys[..i], n, end)
    ensures var run := RunLength(DaysOf(keys), keys[i]);
            && run == (if i > 0 && keys[i] - keys[i - 1] == 1 then RunLength(DaysOf(keys), keys[i - 1]) + 1 else 1)
            && (if run > n then IsBestAmong(DaysOf(keys), keys[..i + 1], run, Some(keys[i]))
                else IsBestAmong(DaysOf(keys), keys[..i + 1], n, end))
  {
    assert keys[..i + 1] == keys[..i] + [keys[i]];
    RunAtKey(keys, i);
    BestAmongGrows(DaysOf(keys), keys[..i], keys[i], n, end);
  }

  lemma BestAmongIsBest(keys: seq<int>, today: int, i: nat, n: nat, end: Option<int>)
    requires StrictlyRising(keys) && i <= |keys|
    requires i > 0 ==> keys[i - 1] <= today
    requires i < |keys| ==> keys[i] > today
    requires IsBestAmong(DaysOf(keys), keys[..i], n, end)
    ensures IsBestStreak(DaysOf(keys), today, n, end)
    ensures i == 0 ==> forall k :: k in keys ==> k > today
    ensures i > 0 ==> IsLastActive(DaysOf(keys), today, keys[i - 1])
  {
    forall k | k in keys
      ensures k <= today <==> k in keys[..i]
      ensures k <= today ==> i > 0 && k <= keys[i - 1]
    {
      var j :| 0 <= j < |keys| && keys[j] == k;
      assert j < i ==> keys[..i][j] == k;
    }
    forall day
      ensures day <= today ==> RunLength(DaysOf(keys), day) <= n
      ensures end.Some? && day < end.value ==> RunLength(DaysOf(keys), day) < n
    {
    }
  }
}
