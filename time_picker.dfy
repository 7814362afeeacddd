/** The `TimePicker` component: hour and minute steppers that wrap around, the
    AM/PM switch, the "HH:MM" text it reports through `onChange`, and its
    12-hour display. */
module TimePicker {
  import opened Optional
  import opened Text
  import TimeUtils

  /** The hour after one press of the up (`increment`) or down arrow. */
  function HourStep(hours: nat, increment: bool): (r: nat)
    ensures r <= 23
    ensures hours <= 23 ==> r == (hours + (if increment then 1 else -1)) % 24
  {
    var newHours := if increment then hours + 1 else hours - 1;
    if newHours < 0 then 23 else if newHours > 23 then 0 else newHours
  }

  /** The minute after one press of an arrow: steps of 5 between 0 and 55. */
  function MinuteStep(minutes: nat, increment: bool): (r: nat)
    ensures r <= 55
    ensures minutes <= 55 && minutes % 5 == 0 ==>
      r % 5 == 0 && r == (minutes + (if increment then 5 else -5)) % 60
  {
    var newMinutes := if increment then minutes + 5 else minutes - 5;
    if newMinutes < 0 then 55 else if newMinutes > 55 then 0 else newMinutes
  }

  /** The hour after pressing AM: afternoon hours move back by 12. */
  function AmHour(hours: nat): (r: nat)
    ensures hours <= 23 ==> r < 12 && r % 12 == hours % 12
  {
    if hours >= 12 then hours - 12 else hours
  }

  /** The hour after pressing PM: morning hours move forward by 12. */
  function PmHour(hours: nat): (r: nat)
    ensures hours <= 23 ==> 12 <= r <= 23 && r % 12 == hours % 12
  {
    if hours < 12 then hours + 12 else hours
  }

  /** `updateTime`: the zero-padded "HH:MM" handed to `onChange`: two digits,
      a colon and two digits whenever both numbers are below 100. */
  function UpdateTime(hours: nat, minutes: nat): (s: string)
    ensures hours < 100 && minutes < 100 ==>
      |s| == 5 && s[2] == ':' && AllDigits(s[..2]) && AllDigits(s[3..]) &&
      DigitsValue(s[..2]) == hours && DigitsValue(s[3..]) == minutes
  {
    PaddedPairFields(hours, minutes);
    PaddedPair(hours, minutes)
  }

  /** Reading the text of `updateTime` back the way the picker parses its
      `value` gives the same hours and minutes. */
  lemma UpdateTimeRoundTrip(hours: nat, minutes: nat)
    ensures TimeUtils.ParseClock(UpdateTime(hours, minutes)) == Some(TimeUtils.ClockTime(hours, minutes))
  {
    PaddedPairRoundTrip(hours, minutes);
  }

  /** `formatTimeDisplay`: the 12-hour text under the picker; it reads back as
      the 12-hour face of the selected time. */
  function FormatTimeDisplay(hours: nat, minutes: nat): (s: string)
    ensures TimeUtils.ParseTwelveHour(s) == Some(TimeUtils.ToTwelveHour(TimeUtils.ClockTime(hours, minutes)))
    ensures minutes < 100 ==> |TimeUtils.MinuteField(s)| == 2
    ensures TimeUtils.HourField(s) == NatToString(TimeUtils.ToTwelveHour(TimeUtils.ClockTime(hours, minutes)).hour)
  {
    var face := TimeUtils.ToTwelveHour(TimeUtils.ClockTime(hours, minutes));
    TimeUtils.TwelveHourRoundText(face);
    TimeUtils.RenderTwelveHour(face)
  }

  /** The picker's state: the selected hours and minutes, and the strings it has
      passed to `onChange`, oldest first. */
  class TimePicker {
    var selectedHours: nat
    var selectedMinutes: nat
    var emitted: seq<string>

    /** Both selections on the 24-hour clock. */
    predicate ValidSelection()
      reads this
    {
      selectedHours <= 23 && selectedMinutes <= 59
    }

    /** The first render: `value.split(':').map(Number)` seeds both selections. */
    constructor(value: string)
      requires TimeUtils.ParseClock(value).Some?
      ensures TimeUtils.ParseClock(value) == Some(TimeUtils.ClockTime(selectedHours, selectedMinutes))
      ensures emitted == []
    {
      var t := TimeUtils.ParseClock(value).value;
      selectedHours := t.hours;
      selectedMinutes := t.minutes;
      emitted := [];
    }

    /** `handleHourChange`. */
    method HandleHourChange(increment: bool)
      modifies this
      ensures selectedHours == HourStep(old(selectedHours), increment)
      ensures selectedMinutes == old(selectedMinutes)
      ensures emitted == old(emitted) + [UpdateTime(selectedHours, selectedMinutes)]
      ensures old(selectedMinutes) <= 59 ==> ValidSelection()
    {
      var newHours: int := if increment then selectedHours + 1 else selectedHours - 1;
      if newHours < 0 {
        newHours := 23;
      }
      if newHours > 23 {
        newHours := 0;
      }
      selectedHours := newHours;
      emitted := emitted + [UpdateTime(newHours, selectedMinutes)];
    }

    /** `handleMinuteChange`. */
    method HandleMinuteChange(increment: bool)
      modifies this
      ensures selectedMinutes == MinuteStep(old(selectedMinutes), increment)
      ensures selectedHours == old(selectedHours)
      ensures emitted == old(emitted) + [UpdateTime(selectedHours, selectedMinutes)]
      ensures old(selectedHours) <= 23 ==> ValidSelection()
    {
      var newMinutes: int := if increment then selectedMinutes + 5 else selectedMinutes - 5;
      if newMinutes < 0 {
        newMinutes := 55;
      }
      if newMinutes > 55 {
        newMinutes := 0;
      }
      selectedMinutes := newMinutes;
      emitted := emitted + [UpdateTime(selectedHours, newMinutes)];
    }

    /** The AM button: only an afternoon hour changes, and only then is `onChange` called. */
    method PressAm()
      modifies this
      ensures selectedHours == AmHour(old(selectedHours))
      ensures selectedMinutes == old(selectedMinutes)
      ensures old(selectedHours) >= 12 ==> emitted == old(emitted) + [UpdateTime(selectedHours, selectedMinutes)]
      ensures old(selectedHours) < 12 ==> emitted == old(emitted)
      ensures old(ValidSelection()) ==> ValidSelection()
    {
      if selectedHours >= 12 {
        var newHours := selectedHours - 12;
        selectedHours := newHours;
        emitted := emitted + [UpdateTime(newHours, selectedMinutes)];
      }
    }

    /** The PM button: only a morning hour changes, and only then is `onChange` called. */
    method PressPm()
      modifies this
      ensures selectedHours == PmHour(old(selectedHours))
      ensures selectedMinutes == old(selectedMinutes)
      ensures old(selectedHours) < 12 ==> emitted == old(emitted) + [UpdateTime(selectedHours, selectedMinutes)]
      ensures old(selectedHours) >= 12 ==> emitted == old(emitted)
      ensures old(ValidSelection()) ==> ValidSelection()
    {
      if selectedHours < 12 {
        var newHours := selectedHours + 12;
        selectedHours := newHours;
        emitted := emitted + [UpdateTime(newHours, selectedMinutes)];
      }
    }
  }

  // ---------------------------------------------------------------------------
  // Lemmas

  /** Up then down, or down then up, returns to the hour you started from. */
  lemma HourStepsUndo(hours: nat)
    requires hours <= 23
    ensures HourStep(HourStep(hours, true), false) == hours
    ensures HourStep(HourStep(hours, false), true) == hours
  {
  }

  /** On the five-minute grid, up and down undo each other. */
  lemma MinuteStepsUndo(minutes: nat)
    requires minutes <= 55 && minutes % 5 == 0
    ensures MinuteStep(MinuteStep(minutes, true), false) == minutes
    ensures MinuteStep(MinuteStep(minutes, false), true) == minutes
  {
  }

  /** The hour after `n` presses of the up arrow. */
  function HourAfterPresses(hours: nat, n: nat): nat
    decreases n
  {
    if n == 0 then hours else HourStep(HourAfterPresses(hours, n - 1), true)
  }

  /** Pressing up `n` times advances the hour by `n` round the 24-hour dial;
      in particular 24 presses come back to the start. */
  lemma {:induction false} HourPressesWrap(hours: nat, n: nat)
    requires hours <= 23
    ensures HourAfterPresses(hours, n) == (hours + n) % 24
    decreases n
  {
    if n > 0 {
      HourPressesWrap(hours, n - 1);
    }
  }

  /** AM then PM, or PM then AM, keeps the hour within the half-day flip:
      on the 24-hour clock the pair of switches is the identity on the side
      the second press selects. */
  lemma AmPmSwitches(hours: nat)
    requires hours <= 23
    ensures PmHour(AmHour(hours)) == (if hours >= 12 then hours else hours + 12)
    ensures AmHour(PmHour(hours)) == (if hours < 12 then hours else hours - 12)
  {
  }
}
