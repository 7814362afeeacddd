/** The streak-accounting engine of `useDetoxStats`: the `DetoxStats` record, the
    shallow merge that every update goes through, and the completion and reset
    transitions. Calendar dates are day numbers, so yesterday is `today - 1`. */
module StatsHook {
  import opened Optional

  /** `DetoxStats`, with `lastCompletedDate` as a day number or `null`. */
  datatype DetoxStats = DetoxStats(
    currentStreak: nat,
    longestStreak: nat,
    totalDetoxDays: nat,
    lastCompletedDate: Option<int>)

  /** `DEFAULT_DETOX_STATS`. */
  const DefaultDetoxStats := DetoxStats(0, 0, 0, None)

  /** `Partial<DetoxStats>`: each field is either supplied or left out. */
  datatype StatsPatch = StatsPatch(
    currentStreak: Option<nat>,
    longestStreak: Option<nat>,
    totalDetoxDays: Option<nat>,
    lastCompletedDate: Option<Option<int>>)

  /** `{ ...stats, ...newStats }`: a supplied field takes the patch's value, a
      field left out keeps the record's. */
  function Merge(s: DetoxStats, p: StatsPatch): (r: DetoxStats)
    ensures r.currentStreak == if p.currentStreak.Some? then p.currentStreak.value else s.currentStreak
    ensures r.longestStreak == if p.longestStreak.Some? then p.longestStreak.value else s.longestStreak
    ensures r.totalDetoxDays == if p.totalDetoxDays.Some? then p.totalDetoxDays.value else s.totalDetoxDays
    ensures r.lastCompletedDate == if p.lastCompletedDate.Some? then p.lastCompletedDate.value else s.lastCompletedDate
  {
    DetoxStats(
      p.currentStreak.GetOr(s.currentStreak),
      p.longestStreak.GetOr(s.longestStreak),
      p.totalDetoxDays.GetOr(s.totalDetoxDays),
      p.lastCompletedDate.GetOr(s.lastCompletedDate))
  }

  /** A patch that supplies every field of `s`. */
  function Whole(s: DetoxStats): StatsPatch {
    StatsPatch(Some(s.currentStreak), Some(s.longestStreak), Some(s.totalDetoxDays), Some(s.lastCompletedDate))
  }

  /** The patch whose merge has the effect of merging `p` and then `q`. */
  function Overlay(p: StatsPatch, q: StatsPatch): StatsPatch {
    StatsPatch(
      if q.currentStreak.Some? then q.currentStreak else p.currentStreak,
      if q.longestStreak.Some? then q.longestStreak else p.longestStreak,
      if q.totalDetoxDays.Some? then q.totalDetoxDays else p.totalDetoxDays,
      if q.lastCompletedDate.Some? then q.lastCompletedDate else p.lastCompletedDate)
  }

  /** The patch `resetStreak` sends. */
  const ResetStreakPatch := StatsPatch(Some(0), None, None, None)

  /** The longest streak is never shorter than the current one. */
  predicate StreakInvariant(s: DetoxStats) {
    s.currentStreak <= s.longestStreak
  }

  /** The record `completeDetoxDay` leaves behind when run on day `today`. */
  function CompleteDay(s: DetoxStats, today: int): (r: DetoxStats)
    ensures r.lastCompletedDate == Some(today)
    ensures r.longestStreak >= s.longestStreak
    ensures StreakInvariant(s) ==> StreakInvariant(r)
    ensures r.totalDetoxDays == s.totalDetoxDays + (if s.lastCompletedDate == Some(today) then 0 else 1)
  {
    if s.lastCompletedDate == Some(today) then
      s
    else
      var current := if s.lastCompletedDate == Some(today - 1) then s.currentStreak + 1 else 1;
      var longest := if current >= s.longestStreak then current else s.longestStreak;
      Merge(s, StatsPatch(Some(current), Some(longest), Some(s.totalDetoxDays + 1), Some(Some(today))))
  }

  /** The state of one `useDetoxStats` hook: the record held in memory, the
      loading flag, and the records written to the `detox_stats` key of the
      store, oldest first. */
  class DetoxStatsHook {
    var stats: DetoxStats
    var loading: bool
    var written: seq<DetoxStats>

    /** The hook on first render: default record, still loading, nothing written. */
    constructor()
      ensures stats == DefaultDetoxStats && loading && written == []
    {
      stats := DefaultDetoxStats;
      loading := true;
      written := [];
    }

    /** `loadStats`: adopt the stored record when there is one, then stop loading. */
    method LoadStats(stored: Option<DetoxStats>)
      modifies this
      ensures stats == if stored.Some? then stored.value else old(stats)
      ensures !loading && written == old(written)
    {
      if stored.Some? {
        stats := stored.value;
      }
      loading := false;
    }

    /** `updateStats`: commit the merged record in memory, then write it to the
        store. The store reports no failure, so the result is always `true`. */
    method UpdateStats(newStats: StatsPatch) returns (ok: bool)
      modifies this
      ensures stats == Merge(old(stats), newStats)
      ensures written == old(written) + [stats]
      ensures loading == old(loading)
      ensures ok
    {
      var updatedStats := Merge(stats, newStats);
      stats := updatedStats;
      written := written + [updatedStats];
      ok := true;
    }

    /** `completeDetoxDay`: nothing happens when today is already completed;
        otherwise the streak continues from yesterday or restarts at 1, the
        longest streak follows it, and the total grows by one. */
    method CompleteDetoxDay(today: int) returns (ok: bool)
      modifies this
      ensures stats == CompleteDay(old(stats), today)
      ensures written == if old(stats).lastCompletedDate == Some(today) then old(written) else old(written) + [stats]
      ensures loading == old(loading)
      ensures ok
    {
      if stats.lastCompletedDate == Some(today) {
        return true;
      }
      var yesterday := today - 1;
      var currentStreak := stats.currentStreak;
      if stats.lastCompletedDate == Some(yesterday) {
        currentStreak := currentStreak + 1;
      } else {
        currentStreak := 1;
      }
      var longestStreak := if currentStreak >= stats.longestStreak then currentStreak else stats.longestStreak;
      ok := UpdateStats(StatsPatch(Some(currentStreak), Some(longestStreak), Some(stats.totalDetoxDays + 1), Some(Some(today))));
    }

    /** `resetStreak`: the current streak drops to 0 and nothing else changes. */
    method ResetStreak() returns (ok: bool)
      modifies this
      ensures stats == old(stats).(currentStreak := 0)
      ensures written == old(written) + [stats]
      ensures loading == old(loading)
      ensures ok
    {
      ok := UpdateStats(ResetStreakPatch);
    }

    /** `resetStats`: back to the default record. */
    method ResetStats() returns (ok: bool)
      modifies this
      ensures stats == DefaultDetoxStats
      ensures written == old(written) + [stats]
      ensures loading == old(loading)
      ensures ok
    {
      ok := UpdateStats(Whole(DefaultDetoxStats));
    }
  }

  // ---------------------------------------------------------------------------
  // Lemmas about the merge

  /** Merging a whole record replaces the old one, whatever it was. */
  lemma MergeWhole(s: DetoxStats, t: DetoxStats)
    ensures Merge(s, Whole(t)) == t
  {
  }

  /** Fields a patch leaves out keep their old values, and merging the same
      patch a second time changes nothing. */
  lemma MergeFields(s: DetoxStats, p: StatsPatch)
    ensures p.currentStreak.None? ==> Merge(s, p).currentStreak == s.currentStreak
    ensures p.longestStreak.None? ==> Merge(s, p).longestStreak == s.longestStreak
    ensures p.totalDetoxDays.None? ==> Merge(s, p).totalDetoxDays == s.totalDetoxDays
    ensures p.lastCompletedDate.None? ==> Merge(s, p).lastCompletedDate == s.lastCompletedDate
    ensures Merge(s, p) == Merge(Merge(s, p), p)
  {
  }

  /** Two merges in a row: for every field the later patch wins. */
  lemma MergeLastWins(s: DetoxStats, p: StatsPatch, q: StatsPatch)
    ensures Merge(Merge(s, p), q) == Merge(s, Overlay(p, q))
  {
  }

  // ---------------------------------------------------------------------------
  // Lemmas about the transitions

  /** Completing the same day twice is the same as completing it once. */
  lemma CompleteDayIdempotent(s: DetoxStats, today: int)
    ensures CompleteDay(CompleteDay(s, today), today) == CompleteDay(s, today)
  {
  }

  /** The three ways a completion can go: already done today, continuing from
      yesterday, or starting a new streak of exactly 1. */
  lemma CompleteDayStreak(s: DetoxStats, today: int)
    ensures s.lastCompletedDate == Some(today) ==> CompleteDay(s, today) == s
    ensures s.lastCompletedDate == Some(today - 1) ==>
      CompleteDay(s, today).currentStreak == s.currentStreak + 1 &&
      CompleteDay(s, today).longestStreak == (if s.currentStreak + 1 >= s.longestStreak then s.currentStreak + 1 else s.longestStreak)
    ensures s.lastCompletedDate != Some(today) && s.lastCompletedDate != Some(today - 1) ==>
      CompleteDay(s, today).currentStreak == 1 &&
      CompleteDay(s, today).longestStreak == (if 1 >= s.longestStreak then 1 else s.longestStreak)
  {
  }

  /** `resetStreak` zeroes the current streak only, and keeps the invariant. */
  lemma ResetStreakOnlyZeroes(s: DetoxStats)
    ensures Merge(s, ResetStreakPatch) == s.(currentStreak := 0)
    ensures StreakInvariant(Merge(s, ResetStreakPatch))
  {
  }

  // ---------------------------------------------------------------------------
  // The counters against a completion history

  predicate StrictlyIncreasing(days: seq<int>) {
    forall i, j :: 0 <= i < j < |days| ==> days[i] < days[j]
  }

  /** How many days at the end of the history follow one another without a gap. */
  function TrailingRun(days: seq<int>): (k: nat)
    requires StrictlyIncreasing(days)
    ensures k <= |days| && (days != [] ==> 1 <= k)
    ensures forall i :: |days| - k <= i < |days| ==> days[i] == days[|days| - 1] - (|days| - 1 - i)
    ensures 0 < k < |days| ==> days[|days| - 1 - k] < days[|days| - 1] - k
    decreases |days|
  {
    if |days| == 0 then 0
    else if |days| >= 2 && days[|days| - 2] == days[|days| - 1] - 1 then
      var prefix := days[..|days| - 1];
      var k := TrailingRun(prefix);
      assert forall i :: 0 <= i < |prefix| ==> prefix[i] == days[i];
      k + 1
    else 1
  }

  /** The longest gap-free run anywhere in the history, as the largest trailing
      run of any of its prefixes. */
  function LongestRun(days: seq<int>): (k: nat)
    requires StrictlyIncreasing(days)
    ensures TrailingRun(days) <= k <= |days|
    decreases |days|
  {
    if |days| == 0 then 0
    else
      var earlier := LongestRun(days[..|days| - 1]);
      if TrailingRun(days) >= earlier then TrailingRun(days) else earlier
  }

  /** A prefix of a strictly increasing history is strictly increasing. */
  lemma PrefixIncreasing(days: seq<int>, j: nat)
    requires StrictlyIncreasing(days) && j <= |days|
    ensures StrictlyIncreasing(days[..j])
  {
  }

  /** The run ending on day `j` of the history (counting from 1). */
  function RunEndingAt(days: seq<int>, j: nat): nat
    requires StrictlyIncreasing(days) && 0 < j <= |days|
  {
    PrefixIncreasing(days, j);
    TrailingRun(days[..j])
  }

  /** A day before the last ends the same run in the history as in the history
      without its last day. */
  lemma RunEndingAtPrefix(days: seq<int>, j: nat)
    requires StrictlyIncreasing(days) && 0 < j < |days|
    ensures StrictlyIncreasing(days[..|days| - 1])
    ensures RunEndingAt(days[..|days| - 1], j) == RunEndingAt(days, j)
  {
    PrefixIncreasing(days, |days| - 1);
    assert days[..|days| - 1][..j] == days[..j];
  }

  /** The last day ends the trailing run. */
  lemma RunEndingAtLast(days: seq<int>)
    requires StrictlyIncreasing(days) && days != []
    ensures RunEndingAt(days, |days|) == TrailingRun(days)
  {
    assert days[..|days|] == days;
  }

  /** The longest run is the larger of the trailing run and the longest run
      without the last day. */
  lemma LongestRunStep(days: seq<int>)
    requires StrictlyIncreasing(days) && days != []
    ensures StrictlyIncreasing(days[..|days| - 1])
    ensures LongestRun(days) >= TrailingRun(days) && LongestRun(days) >= LongestRun(days[..|days| - 1])
    ensures LongestRun(days) == TrailingRun(days) || LongestRun(days) == LongestRun(days[..|days| - 1])
  {
    PrefixIncreasing(days, |days| - 1);
  }

  /** No day of the history ends a run longer than the longest run. */
  lemma LongestRunBounds(days: seq<int>)
    requires StrictlyIncreasing(days)
    ensures days == [] ==> LongestRun(days) == 0
    ensures forall j :: 0 < j <= |days| ==> RunEndingAt(days, j) <= LongestRun(days)
  {
    forall j | 0 < j <= |days|
      ensures RunEndingAt(days, j) <= LongestRun(days)
    {
      RunEndingAtBound(days, j);
    }
  }

  lemma {:induction false} RunEndingAtBound(days: seq<int>, j: nat)
    requires StrictlyIncreasing(days) && 0 < j <= |days|
    ensures RunEndingAt(days, j) <= LongestRun(days)
    decreases |days|
  {
    LongestRunStep(days);
    if j == |days| {
      RunEndingAtLast(days);
    } else {
      RunEndingAtPrefix(days, j);
      RunEndingAtBound(days[..|days| - 1], j);
    }
  }

  /** Some day of a non-empty history ends a run exactly as long as the longest run. */
  lemma {:induction false} LongestRunAttained(days: seq<int>)
    requires StrictlyIncreasing(days) && days != []
    ensures exists j :: 0 < j <= |days| && RunEndingAt(days, j) == LongestRun(days)
    decreases |days|
  {
    LongestRunStep(days);
    var prefix := days[..|days| - 1];
    if LongestRun(days) == TrailingRun(days) {
      RunEndingAtLast(days);
    } else {
      LongestRunAttained(prefix);
      var j :| 0 < j <= |prefix| && RunEndingAt(prefix, j) == LongestRun(prefix);
      RunEndingAtPrefix(days, j);
    }
  }

  /** The record after completing each day of the history in turn, from the defaults. */
  function Replay(days: seq<int>): DetoxStats
    decreases |days|
  {
    if |days| == 0 then DefaultDetoxStats else CompleteDay(Replay(days[..|days| - 1]), days[|days| - 1])
  }

  /** Completing a strictly increasing run of days from the defaults leaves the
      current streak equal to the gap-free run ending on the last day, the
      longest streak equal to the longest such run, and the total equal to the
      number of days. */
  lemma {:induction false} ReplayMatchesHistory(days: seq<int>)
    requires StrictlyIncreasing(days)
    ensures Replay(days).currentStreak == TrailingRun(days)
    ensures Replay(days).longestStreak == LongestRun(days)
    ensures Replay(days).totalDetoxDays == |days|
    ensures Replay(days).lastCompletedDate == if days == [] then None else Some(days[|days| - 1])
    decreases |days|
  {
    if days != [] {
      var prefix := days[..|days| - 1];
      assert StrictlyIncreasing(prefix);
      ReplayMatchesHistory(prefix);
      if |days| >= 2 {
        assert prefix[|prefix| - 1] == days[|days| - 2];
      }
    }
  }
}
