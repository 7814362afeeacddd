/** The lock screen shown during the detox window: the emergency-bypass counter
    that resets the streak on its third press, the once-a-minute clock tick that
    leaves the screen when the window is over, and the minute counts behind the
    countdown. */
module LockScreen {
  import opened Optional
  import TimeUtils
  import StatsHook

  /** A press goes through, resetting the streak and leaving, when the count
      before the press has reached 2. */
  predicate BypassFires(attempts: nat) {
    attempts >= 2
  }

  datatype ShieldIcon = ShieldCheck | ShieldAlert

  /** The header icon: a check until the first bypass press, an alert after it. */
  function HeaderIcon(bypassAttempts: nat): (icon: ShieldIcon)
    ensures icon == ShieldCheck <==> bypassAttempts == 0
  {
    if bypassAttempts == 0 then ShieldCheck else ShieldAlert
  }

  const WarningMessage: string := "Warning: Bypassing will reset your streak."
  const ConfirmHint: string := " (1 more tap to confirm)"

  /** The warning under the bypass button, absent before the first press; the
      hint to tap once more appears only after exactly one press. */
  function BypassWarning(bypassAttempts: nat): (w: Option<string>)
    ensures w.Some? <==> bypassAttempts > 0
    ensures w.Some? ==> |WarningMessage| <= |w.value| && w.value[..|WarningMessage|] == WarningMessage
    ensures w.Some? ==> (|w.value| > |WarningMessage| <==> bypassAttempts == 1)
    ensures w.Some? ==> (w.value == WarningMessage + ConfirmHint <==> bypassAttempts == 1)
    ensures bypassAttempts >= 2 ==> w == Some(WarningMessage)
  {
    assert WarningMessage + "" == WarningMessage;
    if bypassAttempts > 0 then
      Some(WarningMessage + (if bypassAttempts == 1 then ConfirmHint else ""))
    else
      None
  }

  /** Minutes of the window already behind: the window's length less what remains. */
  function ElapsedMinutes(start: TimeUtils.ClockTime, end: TimeUtils.ClockTime, current: TimeUtils.ClockTime): (r: int)
    ensures TimeUtils.Valid(start) && TimeUtils.Valid(end) && TimeUtils.Valid(current) ==>
      var s, e, c := TimeUtils.ConvertTimeToMinutes(start), TimeUtils.ConvertTimeToMinutes(end), TimeUtils.ConvertTimeToMinutes(current);
      r == TimeUtils.DialDistance(s, e) - TimeUtils.DialDistance(c, e)
  {
    TimeUtils.GetRemainingDetoxTime(start, end) - TimeUtils.GetRemainingDetoxTime(current, end)
  }

  /** How many of `presses` further bypass presses reset the streak, when
      `attempts` presses have already been counted. */
  function ResetsFrom(attempts: nat, presses: nat): nat
    decreases presses
  {
    if presses == 0 then 0
    else (if BypassFires(attempts) then 1 else 0) + ResetsFrom(attempts + 1, presses - 1)
  }

  /** The screen's state: the window it enforces, the clock, the bypass count,
      the stats hook whose streak a bypass resets, how many resets it asked for,
      and whether it has navigated away. */
  class LockScreen {
    const start: TimeUtils.ClockTime
    const end: TimeUtils.ClockTime
    const statsHook: StatsHook.DetoxStatsHook
    var currentTime: TimeUtils.ClockTime
    var bypassAttempts: nat
    var resets: nat
    var exited: bool

    constructor(now: TimeUtils.ClockTime, start: TimeUtils.ClockTime, end: TimeUtils.ClockTime, statsHook: StatsHook.DetoxStatsHook)
      ensures this.start == start && this.end == end && this.statsHook == statsHook
      ensures currentTime == now && bypassAttempts == 0 && resets == 0 && !exited
    {
      this.start := start;
      this.end := end;
      this.statsHook := statsHook;
      currentTime := now;
      bypassAttempts := 0;
      resets := 0;
      exited := false;
    }

    /** `handleBypassAttempt`: count the press; when the count before it had
        reached 2, reset the streak and leave the screen. */
    method HandleBypassAttempt()
      modifies this, statsHook
      ensures bypassAttempts == old(bypassAttempts) + 1
      ensures resets == old(resets) + (if BypassFires(old(bypassAttempts)) then 1 else 0)
      ensures exited == (old(exited) || BypassFires(old(bypassAttempts)))
      ensures statsHook.stats == if BypassFires(old(bypassAttempts)) then old(statsHook.stats).(currentStreak := 0) else old(statsHook.stats)
      ensures statsHook.written == if BypassFires(old(bypassAttempts)) then old(statsHook.written) + [statsHook.stats] else old(statsHook.written)
      ensures statsHook.loading == old(statsHook.loading)
      ensures currentTime == old(currentTime)
    {
      var attemptsBefore := bypassAttempts;
      bypassAttempts := bypassAttempts + 1;
      if attemptsBefore >= 2 {
        var _ := statsHook.ResetStreak();
        resets := resets + 1;
        exited := true;
      }
    }

    /** The minute tick: take the new time, and leave once it is outside the window. */
    method Tick(newTime: TimeUtils.ClockTime)
      modifies this
      ensures currentTime == newTime
      ensures exited == (old(exited) || !TimeUtils.IsTimeInRange(newTime, start, end))
      ensures bypassAttempts == old(bypassAttempts) && resets == old(resets)
    {
      currentTime := newTime;
      if !TimeUtils.IsTimeInRange(newTime, start, end) {
        exited := true;
      }
    }
  }

  /** Three bypass presses on a fresh lock screen: the first two only count, the
      third resets the streak once, writes the record once and leaves. */
  method ThreeBypassPresses(initial: StatsHook.DetoxStats, now: TimeUtils.ClockTime, start: TimeUtils.ClockTime, end: TimeUtils.ClockTime)
    returns (exitedAfterTwo: bool, resets: nat, exited: bool, after: StatsHook.DetoxStats, writes: nat)
    ensures !exitedAfterTwo
    ensures resets == 1 && exited
    ensures after == initial.(currentStreak := 0)
    ensures writes == 1
  {
    var hook := new StatsHook.DetoxStatsHook();
    hook.LoadStats(Some(initial));
    var screen := new LockScreen(now, start, end, hook);
    screen.HandleBypassAttempt();
    screen.HandleBypassAttempt();
    exitedAfterTwo := screen.exited;
    screen.HandleBypassAttempt();
    resets, exited, after, writes := screen.resets, screen.exited, hook.stats, |hook.written|;
  }

  // ---------------------------------------------------------------------------
  // Lemmas

  /** The alert icon and the warning appear together. */
  lemma IconMatchesWarning(bypassAttempts: nat)
    ensures HeaderIcon(bypassAttempts) == ShieldAlert <==> BypassWarning(bypassAttempts).Some?
  {
  }

  /** From `attempts` counted presses, all but the presses needed to reach a count
      of 2 reset the streak; from a fresh screen, `n` presses reset it `n - 2` times. */
  lemma {:induction false} ResetsCount(attempts: nat, presses: nat)
    ensures ResetsFrom(attempts, presses) ==
      if attempts >= 2 then presses
      else if presses <= 2 - attempts then 0
      else presses - (2 - attempts)
    decreases presses
  {
    if presses > 0 {
      ResetsCount(attempts + 1, presses - 1);
    }
  }

  /** Presses one and two do nothing; press three resets the streak exactly once. */
  lemma ThreePressesResetOnce()
    ensures ResetsFrom(0, 2) == 0 && ResetsFrom(0, 3) == 1
  {
    ResetsCount(0, 2);
    ResetsCount(0, 3);
  }

  /** Inside the window the elapsed minutes are the distance on the dial from the
      start, so they run from 0 up to the window's length. */
  lemma ElapsedWithinWindow(start: TimeUtils.ClockTime, end: TimeUtils.ClockTime, current: TimeUtils.ClockTime)
    requires TimeUtils.Valid(start) && TimeUtils.Valid(end) && TimeUtils.Valid(current)
    requires TimeUtils.IsTimeInRange(current, start, end)
    ensures ElapsedMinutes(start, end, current) ==
      TimeUtils.DialDistance(TimeUtils.ConvertTimeToMinutes(start), TimeUtils.ConvertTimeToMinutes(current))
    ensures 0 <= ElapsedMinutes(start, end, current) <= TimeUtils.GetRemainingDetoxTime(start, end)
  {
    var t: int, s: int, e: int := TimeUtils.ConvertTimeToMinutes(current), TimeUtils.ConvertTimeToMinutes(start), TimeUtils.ConvertTimeToMinutes(end);
    TimeUtils.DayMod(t - s);
    TimeUtils.DayMod(e - s);
    TimeUtils.DayMod(e - t);
  }

  /** At the start nothing has elapsed; at the end nothing remains. */
  lemma CountdownEnds(start: TimeUtils.ClockTime, end: TimeUtils.ClockTime)
    requires TimeUtils.Valid(start) && TimeUtils.Valid(end)
    ensures ElapsedMinutes(start, end, start) == 0
    ensures TimeUtils.GetRemainingDetoxTime(end, end) == 0
    ensures ElapsedMinutes(start, end, end) == TimeUtils.GetRemainingDetoxTime(start, end)
  {
  }
}
