/**
 * Usage-span statistics over the calendar days on which a participant used
 * the app: distinct days, first and last day, duration, the longest gap
 * between consecutive days and the longest run of consecutive days.
 */
module Engagement {
  import opened Wrappers

  predicate StrictlyIncreasing(s: seq<int>) {
    forall i, j :: 0 <= i < j < |s| ==> s[i] < s[j]
  }

  /** Insert a day into a strictly increasing sequence of days, keeping it so. */
  function Insert(x: int, s: seq<int>): (r: seq<int>)
    requires StrictlyIncreasing(s)
    ensures StrictlyIncreasing(r)
    ensures forall y :: y in r <==> y == x || y in s
    decreases |s|
  {
    if s == [] then [x]
    else if x < s[0] then [x] + s
    else if x == s[0] then s
    else
      assert forall y :: y in s[1..] ==> s[0] < y;
      var rest := Insert(x, s[1..]);
      assert forall i :: 0 <= i < |rest| ==> s[0] < rest[i] by {
        forall i | 0 <= i < |rest| ensures s[0] < rest[i] {
          assert rest[i] in rest;
        }
      }
      [s[0]] + rest
  }

  /** `sorted(set(dates))`: the distinct days, in increasing order. */
  function SortedDistinct(dates: seq<int>): (days: seq<int>)
    ensures StrictlyIncreasing(days)
    ensures forall d :: d in days <==> d in dates
    ensures dates != [] ==> days != []
    decreases |dates|
  {
    if dates == [] then []
    else
      var init := dates[..|dates| - 1];
      assert forall d :: d in dates <==> d in init || d == dates[|dates| - 1];
      Insert(dates[|dates| - 1], SortedDistinct(init))
  }

  /** A sequence without repetitions has as many elements as its set. */
  lemma {:induction false} DistinctCardinality(s: seq<int>)
    requires StrictlyIncreasing(s)
    ensures |set x | x in s| == |s|
    decreases |s|
  {
    if s != [] {
      var init := s[..|s| - 1];
      var last := s[|s| - 1];
      DistinctCardinality(init);
      assert (set x | x in s) == (set x | x in init) + {last};
      assert last !in (set x | x in init);
    }
  }

  /** Days `a..b` of `days` are consecutive calendar days. */
  predicate IsRun(days: seq<int>, a: int, b: int)
    requires 0 <= a <= b < |days|
  {
    forall k :: a <= k < b ==> days[k + 1] - days[k] == 1
  }

  /** The `len` days from index `a` on are consecutive calendar days. */
  predicate IsRunFrom(days: seq<int>, a: nat, len: nat) {
    len >= 1 && a + len <= |days| && IsRun(days, a, a + len - 1)
  }

  /**
   * `l` is the length of the longest run of consecutive days, or 1 when there
   * are no days at all (the counter's initial value).
   */
  ghost predicate IsLongestStreak(days: seq<int>, l: nat) {
    && (|days| == 0 ==> l == 1)
    && (forall a, b :: 0 <= a <= b < |days| && IsRun(days, a, b) ==> b - a + 1 <= l)
    && (|days| > 0 ==> exists a: nat :: IsRunFrom(days, a, l))
  }

  /** The longest streak is at least 1 and, when there are days, at most their number. */
  lemma LongestStreakBounds(days: seq<int>, l: nat)
    requires IsLongestStreak(days, l)
    ensures l >= 1
    ensures |days| > 0 ==> l <= |days|
  {
  }

  /**
   * What the streak counter knows after the first `i` days: the current
   * streak is the run ending at day `i - 1`, and `longest` is the longest run
   * among the first `i` days.
   */
  ghost predicate StreakState(days: seq<int>, i: nat, streak: nat, longest: nat) {
    && 1 <= i <= |days|
    && 1 <= streak <= i && streak <= longest
    && IsRun(days, i - streak, i - 1)
    && (i - streak > 0 ==> days[i - streak] - days[i - streak - 1] != 1)
    && (forall a, b :: 0 <= a <= b < i && IsRun(days, a, b) ==> b - a + 1 <= longest)
    && exists a: nat :: a + longest <= i && IsRunFrom(days, a, longest)
  }

  /** A run ending where the current streak ends starts no earlier than the streak. */
  lemma RunStartsInStreak(days: seq<int>, i: nat, streak: nat, a: nat)
    requires 1 <= streak <= i <= |days|
    requires i - streak > 0 ==> days[i - streak] - days[i - streak - 1] != 1
    requires a <= i - 1 && IsRun(days, a, i - 1)
    ensures a >= i - streak
  {
    if i - streak > 0 {
      assert days[i - streak] - days[i - streak - 1] != 1;
    }
  }

  /** The next day is one after the previous one: the streak grows. */
  lemma StreakExtends(days: seq<int>, i: nat, streak: nat, longest: nat)
    requires StreakState(days, i, streak, longest) && i < |days|
    requires days[i] - days[i - 1] == 1
    ensures StreakState(days, i + 1, streak + 1, if streak + 1 > longest then streak + 1 else longest)
  {
    var longest' := if streak + 1 > longest then streak + 1 else longest;
    assert IsRun(days, i - streak, i);
    ExtendedRunsBounded(days, i, streak, longest, longest');
    if streak + 1 > longest {
      assert IsRunFrom(days, i - streak, longest');
    } else {
      var a: nat :| a + longest <= i && IsRunFrom(days, a, longest);
      assert a + longest' <= i + 1 && IsRunFrom(days, a, longest');
    }
  }

  lemma ExtendedRunsBounded(days: seq<int>, i: nat, streak: nat, longest: nat, longest': nat)
    requires StreakState(days, i, streak, longest) && i < |days|
    requires longest' >= longest && longest' >= streak + 1
    ensures forall a, b :: 0 <= a <= b < i + 1 && IsRun(days, a, b) ==> b - a + 1 <= longest'
  {
    forall a, b | 0 <= a <= b < i + 1 && IsRun(days, a, b)
      ensures b - a + 1 <= longest'
    {
      if b == i && a < i {
        assert IsRun(days, a, i - 1);
        RunStartsInStreak(days, i, streak, a);
      }
    }
  }

  /** Any other difference: the streak starts over at this day. */
  lemma StreakResets(days: seq<int>, i: nat, streak: nat, longest: nat)
    requires StreakState(days, i, streak, longest) && i < |days|
    requires days[i] - days[i - 1] != 1
    ensures StreakState(days, i + 1, 1, longest)
  {
    assert IsRun(days, i, i);
    forall a, b | 0 <= a <= b < i + 1 && IsRun(days, a, b)
      ensures b - a + 1 <= longest
    {
      assert b < i || a == i;
    }
    var a: nat :| a + longest <= i && IsRunFrom(days, a, longest);
    assert a + longest <= i + 1 && IsRunFrom(days, a, longest);
  }

  /**
   * The counters `(streak, longest)` of `process_file` after the first `i`
   * days: a day exactly one after the previous extends the current streak,
   * any other difference resets it to 1.
   */
  function StreakCounters(days: seq<int>, i: nat): (nat, nat)
    requires 1 <= i <= |days|
    decreases i
  {
    if i == 1 then (1, 1) else StreakStep(days, i - 1, StreakCounters(days, i - 1))
  }

  /** How day `i` updates the counters `(streak, longest)`. */
  function StreakStep(days: seq<int>, i: nat, counters: (nat, nat)): (nat, nat)
    requires 1 <= i < |days|
  {
    var (streak, longest) := counters;
    if days[i] - days[i - 1] == 1 then
      (streak + 1, if streak + 1 > longest then streak + 1 else longest)
    else (1, longest)
  }

  /** The final value of the longest-streak counter, 1 when there are no days. */
  function LongestStreakOf(days: seq<int>): nat {
    if |days| == 0 then 1 else StreakCounters(days, |days|).1
  }

  /** The counters after `i` days are the current run and the longest run so far. */
  lemma {:induction false} StreakCountersState(days: seq<int>, i: nat)
    requires 1 <= i <= |days|
    ensures StreakState(days, i, StreakCounters(days, i).0, StreakCounters(days, i).1)
    decreases i
  {
    if i == 1 {
      StreakStarts(days);
    } else {
      StreakCountersState(days, i - 1);
      StreakStepState(days, i - 1, StreakCounters(days, i - 1));
    }
  }

  /** Each day keeps the meaning of the counters. */
  lemma StreakStepState(days: seq<int>, i: nat, counters: (nat, nat))
    requires 1 <= i < |days| && StreakState(days, i, counters.0, counters.1)
    ensures StreakState(days, i + 1, StreakStep(days, i, counters).0, StreakStep(days, i, counters).1)
  {
    if days[i] - days[i - 1] == 1 {
      StreakExtends(days, i, counters.0, counters.1);
    } else {
      StreakResets(days, i, counters.0, counters.1);
    }
  }

  /** The first day is a streak of one. */
  lemma StreakStarts(days: seq<int>)
    requires |days| >= 1
    ensures StreakState(days, 1, 1, 1)
  {
    assert IsRunFrom(days, 0, 1);
  }

  /** The counter's final value is the length of the longest run of consecutive days. */
  lemma LongestStreakOfIsLongest(days: seq<int>)
    ensures IsLongestStreak(days, LongestStreakOf(days))
  {
    if |days| > 0 {
      StreakCountersState(days, |days|);
      var longest := LongestStreakOf(days);
      var a: nat :| a + longest <= |days| && IsRunFrom(days, a, longest);
    }
  }

  /** The streak loop of `process_file`. */
  method LongestStreak(days: seq<int>) returns (longest: nat)
    ensures longest == LongestStreakOf(days)
    ensures IsLongestStreak(days, longest)
  {
    var streak := 1;
    longest := 1;
    var i := 1;
    while i < |days|
      invariant |days| == 0 ==> longest == 1
      invariant |days| > 0 ==> 1 <= i <= |days| && (streak, longest) == StreakCounters(days, i)
    {
      if days[i] - days[i - 1] == 1 {
        streak := streak + 1;
        if streak > longest {
          longest := streak;
        }
      } else {
        streak := 1;
      }
      i := i + 1;
    }
    LongestStreakOfIsLongest(days);
  }

  /** `max` of the differences between consecutive days, or null with fewer than two days. */
  function LongestGap(days: seq<int>): (g: Option<int>)
    ensures g.None? <==> |days| < 2
    decreases |days|
  {
    if |days| < 2 then None
    else
      var last := days[|days| - 1] - days[|days| - 2];
      var init := LongestGap(days[..|days| - 1]);
      if init.Some? && init.value >= last then init else Some(last)
  }

  /** The longest gap is the difference of some pair of consecutive days. */
  lemma {:induction false} LongestGapAttained(days: seq<int>)
    ensures LongestGap(days).Some? ==> exists i :: 0 <= i < |days| - 1 && LongestGap(days).value == days[i + 1] - days[i]
    decreases |days|
  {
    if |days| >= 2 {
      var n := |days| - 1;
      var init := days[..n];
      LongestGapAttained(init);
      var prev, last := LongestGap(init), days[n] - days[n - 1];
      if prev.Some? && prev.value >= last {
        var i :| 0 <= i < |init| - 1 && prev.value == init[i + 1] - init[i];
        assert days[i + 1] - days[i] == LongestGap(days).value;
      } else {
        assert days[n] - days[n - 1] == LongestGap(days).value;
      }
    }
  }

  /** No difference between consecutive days exceeds the longest gap. */
  lemma {:induction false} LongestGapIsMaximum(days: seq<int>)
    ensures LongestGap(days).Some? ==> forall i :: 0 <= i < |days| - 1 ==> days[i + 1] - days[i] <= LongestGap(days).value
    decreases |days|
  {
    if |days| >= 2 {
      var n := |days| - 1;
      var init := days[..n];
      LongestGapIsMaximum(init);
      forall i | 0 <= i < n
        ensures days[i + 1] - days[i] <= LongestGap(days).value
      {
        if i < n - 1 {
          assert init[i + 1] - init[i] == days[i + 1] - days[i];
        }
      }
    }
  }

  datatype UsageStats = UsageStats(
    totalDaysUsed: nat,
    firstUseDate: Option<int>,
    lastUseDate: Option<int>,
    totalDurationDays: Option<int>,
    engagementRatio: Option<real>,
    longestGapDays: Option<int>,
    longestStreakDays: nat)

  /**
   * The date statistics of `process_file`: the number of distinct days; the
   * earliest and latest day and their difference, all null without dates; the
   * ratio of days to landmarks, null without landmarks; the longest gap and
   * the longest streak over the sorted distinct days.
   */
  ghost predicate IsUsageOf(dates: seq<int>, totalLandmarks: nat, u: UsageStats) {
    && u.totalDaysUsed == |set d | d in dates|
    && (dates == [] <==> u.firstUseDate.None?)
    && (dates == [] <==> u.lastUseDate.None?)
    && (dates == [] <==> u.totalDurationDays.None?)
    && (u.firstUseDate.Some? ==> u.firstUseDate.value in dates && forall d :: d in dates ==> u.firstUseDate.value <= d)
    && (u.lastUseDate.Some? ==> u.lastUseDate.value in dates && forall d :: d in dates ==> d <= u.lastUseDate.value)
    && (u.totalDurationDays.Some? ==>
          u.lastUseDate.Some? && u.firstUseDate.Some? && u.totalDurationDays.value == u.lastUseDate.value - u.firstUseDate.value >= 0)
    && (totalLandmarks > 0 ==> u.engagementRatio == Some(u.totalDaysUsed as real / totalLandmarks as real))
    && (totalLandmarks == 0 ==> u.engagementRatio.None?)
    && u.longestGapDays == LongestGap(SortedDistinct(dates))
    && IsLongestStreak(SortedDistinct(dates), u.longestStreakDays)
  }

  /** The date statistics of `process_file`, computed from the sorted distinct days. */
  function UsageOf(dates: seq<int>, totalLandmarks: nat): (u: UsageStats)
    ensures dates == [] <==> u.firstUseDate.None?
    ensures u.firstUseDate.Some? ==> u.firstUseDate.value in dates && u.lastUseDate.Some? && u.lastUseDate.value in dates
    ensures totalLandmarks == 0 <==> u.engagementRatio.None?
  {
    var days := SortedDistinct(dates);
    var n := |days|;
    UsageStats(
      n,
      if n == 0 then None else Some(days[0]),
      if n == 0 then None else Some(days[n - 1]),
      if n == 0 then None else Some(days[n - 1] - days[0]),
      if totalLandmarks > 0 then Some(n as real / totalLandmarks as real) else None,
      LongestGap(days),
      LongestStreakOf(days))
  }

  /** The computed statistics are what the statistics promise. */
  lemma UsageOfMeaning(dates: seq<int>, totalLandmarks: nat)
    ensures IsUsageOf(dates, totalLandmarks, UsageOf(dates, totalLandmarks))
  {
    var days := SortedDistinct(dates);
    DistinctCardinality(days);
    assert (set d | d in days) == (set d | d in dates);
    if days != [] {
      forall d | d in dates ensures days[0] <= d <= days[|days| - 1] {
        var k :| 0 <= k < |days| && days[k] == d;
      }
      assert days[0] in days && days[|days| - 1] in days;
    }
    LongestStreakOfIsLongest(days);
  }

  method Usage(dates: seq<int>, totalLandmarks: nat) returns (u: UsageStats)
    ensures u == UsageOf(dates, totalLandmarks)
    ensures IsUsageOf(dates, totalLandmarks, u)
  {
    var days := SortedDistinct(dates);
    var first: Option<int> := None;
    var last: Option<int> := None;
    var duration: Option<int> := None;
    if days != [] {
      first := Some(days[0]);
      last := Some(days[|days| - 1]);
      duration := Some(days[|days| - 1] - days[0]);
    }
    var ratio: Option<real> := if totalLandmarks > 0 then Some(|days| as real / totalLandmarks as real) else None;
    var streak := LongestStreak(days);
    u := UsageStats(|days|, first, last, duration, ratio, LongestGap(days), streak);
    UsageOfMeaning(dates, totalLandmarks);
  }

  /** Days 1, 2, 3 and 10: the longest streak is 3 days and the longest gap 7 days. */
  lemma StreakAndGapExample(l: nat)
    requires IsLongestStreak([1, 2, 3, 10], l)
    ensures l == 3
    ensures LongestGap([1, 2, 3, 10]) == Some(7)
  {
    var days := [1, 2, 3, 10];
    assert IsRun(days, 0, 2);
    assert !IsRun(days, 0, 3) by {
      assert days[3] - days[2] != 1;
    }
    assert [1, 2, 3, 10][..3] == [1, 2, 3] && [1, 2, 3][..2] == [1, 2];
  }
}
