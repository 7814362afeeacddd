/** The Pomodoro timer on the home screen: a 25-minute focus phase and a
    5-minute break, counted down one second per run of the timer effect, and
    the "MM:SS" text it shows. */
module Home {
  import opened Optional
  import opened Text

  const FocusSeconds: nat := 25 * 60
  const BreakSeconds: nat := 5 * 60

  /** The timer's three pieces of state. */
  datatype TimerState = TimerState(seconds: int, isRunning: bool, isBreak: bool)

  /** A fresh timer: a full focus phase, not running. */
  const InitialTimer := TimerState(FocusSeconds, false, false)

  /** The seconds left lie between 0 and the length of the current phase. */
  predicate TimerInvariant(t: TimerState) {
    0 <= t.seconds <= if t.isBreak then BreakSeconds else FocusSeconds
  }

  /** One run of the timer effect: count down while running; at 0 switch phase
      and load the new phase's length; when paused nothing happens. */
  function Tick(t: TimerState): (r: TimerState)
    ensures r.isRunning == t.isRunning
    ensures !t.isRunning ==> r == t
    ensures t.isRunning && t.seconds > 0 ==> r.seconds == t.seconds - 1 && r.isBreak == t.isBreak
    ensures t.isRunning && t.seconds == 0 ==> r.isBreak != t.isBreak
    ensures TimerInvariant(t) ==> TimerInvariant(r)
  {
    if t.isRunning && t.seconds > 0 then
      t.(seconds := t.seconds - 1)
    else if t.isRunning && t.seconds == 0 then
      TimerState(if t.isBreak then FocusSeconds else BreakSeconds, t.isRunning, !t.isBreak)
    else
      t
  }

  /** The state after `n` runs of the effect. */
  function Ticks(t: TimerState, n: nat): TimerState
    decreases n
  {
    if n == 0 then t else Ticks(Tick(t), n - 1)
  }

  /** `format`: zero-padded whole minutes, a colon, zero-padded seconds. */
  function Format(s: nat): (text: string)
    ensures SplitPair(text) == Some((s / 60, s % 60))
    ensures s < 6000 ==>
      |text| == 5 && text[2] == ':' && AllDigits(text[..2]) && AllDigits(text[3..]) &&
      DigitsValue(text[..2]) == s / 60 && DigitsValue(text[3..]) == s % 60
  {
    PaddedPairRoundTrip(s / 60, s % 60);
    PaddedPairFields(s / 60, s % 60);
    PaddedPair(s / 60, s % 60)
  }

  /** Reads "MM:SS" back to seconds. */
  function ParseTimer(text: string): Option<nat> {
    match SplitPair(text)
    case Some((m, sec)) => Some(m * 60 + sec)
    case None => None
  }

  /** The `PomodoroTimer` component's state. */
  class PomodoroTimer {
    var seconds: int
    var isRunning: bool
    var isBreak: bool

    function State(): TimerState
      reads this
    {
      TimerState(seconds, isRunning, isBreak)
    }

    constructor()
      ensures State() == InitialTimer
    {
      seconds := FocusSeconds;
      isRunning := false;
      isBreak := false;
    }

    /** The timer effect, run once. */
    method TimerEffect()
      modifies this
      ensures State() == Tick(old(State()))
    {
      if isRunning && seconds > 0 {
        seconds := seconds - 1;
      } else if isRunning && seconds == 0 {
        var wasBreak := isBreak;
        isBreak := !wasBreak;
        seconds := if wasBreak then FocusSeconds else BreakSeconds;
      }
    }

    /** The start/pause button: only `isRunning` flips. */
    method ToggleRunning()
      modifies this
      ensures State() == old(State()).(isRunning := !old(isRunning))
    {
      isRunning := !isRunning;
    }
  }

  // ---------------------------------------------------------------------------
  // Lemmas

  /** The displayed text reads back as the seconds it shows, five characters wide
      for every state the timer can reach. */
  lemma FormatRoundTrip(s: nat)
    ensures ParseTimer(Format(s)) == Some(s)
    ensures s <= FocusSeconds ==> |Format(s)| == 5
  {
  }

  /** Runs of the effect compose. */
  lemma {:induction false} TicksAdd(t: TimerState, a: nat, b: nat)
    ensures Ticks(t, a + b) == Ticks(Ticks(t, a), b)
    decreases a
  {
    if a > 0 {
      TicksAdd(Tick(t), a - 1, b);
    }
  }

  /** A running phase with `k` seconds left ends after `k + 1` runs: `k` to count
      down and one to switch to the other phase at its full length. */
  lemma {:induction false} PhaseRunsOut(k: nat, isBreak: bool)
    ensures Ticks(TimerState(k, true, isBreak), k + 1) ==
      TimerState(if isBreak then FocusSeconds else BreakSeconds, true, !isBreak)
    decreases k
  {
    if k > 0 {
      PhaseRunsOut(k - 1, isBreak);
    }
  }

  /** A running timer goes through a whole focus phase and a whole break and is
      back at a full focus phase after 1500 + 1 + 300 + 1 runs. */
  lemma FullCycle()
    ensures Ticks(TimerState(FocusSeconds, true, false), FocusSeconds + 1 + BreakSeconds + 1) ==
      TimerState(FocusSeconds, true, false)
  {
    var start := TimerState(FocusSeconds, true, false);
    TicksAdd(start, FocusSeconds + 1, BreakSeconds + 1);
    PhaseRunsOut(FocusSeconds, false);
    PhaseRunsOut(BreakSeconds, true);
  }

  /** A paused timer stays as it is however often the effect runs. */
  lemma {:induction false} PausedStays(t: TimerState, n: nat)
    requires !t.isRunning
    ensures Ticks(t, n) == t
    decreases n
  {
    if n > 0 {
      PausedStays(t, n - 1);
    }
  }

  /** Every reachable state keeps the seconds within the current phase. */
  lemma {:induction false} TicksKeepInvariant(t: TimerState, n: nat)
    requires TimerInvariant(t)
    ensures TimerInvariant(Ticks(t, n))
    decreases n
  {
    if n > 0 {
      TicksKeepInvariant(Tick(t), n - 1);
    }
  }
}
