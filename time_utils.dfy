/** The detox-window evaluator: clock times as minutes since midnight, window
    membership across midnight, minutes left in a window, duration and
    12-hour display formats, and the ISO weekday test. */
module TimeUtils {
  import opened Optional
  import opened Text

  const MinutesPerDay: nat := 24 * 60

  /** A clock time as the two numbers read from an "HH:MM" string. */
  datatype ClockTime = ClockTime(hours: nat, minutes: nat)

  /** A well-formed 24-hour clock time. */
  predicate Valid(t: ClockTime) {
    t.hours <= 23 && t.minutes <= 59
  }

  /** `time.split(':').map(Number)` read as a clock time; `None` when either number is `NaN`. */
  function ParseClock(s: string): (r: Option<ClockTime>)
    ensures var p := Split(s, ':');
      r.Some? <==> 2 <= |p| && AllDigits(p[0]) && AllDigits(p[1])
    ensures var p := Split(s, ':');
      r.Some? ==> r.value == ClockTime(DigitsValue(p[0]), DigitsValue(p[1]))
  {
    match SplitPair(s)
    case Some((h, m)) => Some(ClockTime(h, m))
    case None => None
  }

  /** Minutes since midnight. */
  function ConvertTimeToMinutes(t: ClockTime): (r: nat)
    ensures Valid(t) ==> r < MinutesPerDay
  {
    t.hours * 60 + t.minutes
  }

  /** Forward distance on the 24-hour dial from minute `a` to minute `b`. */
  function DialDistance(a: int, b: int): (d: nat)
    ensures d < MinutesPerDay
  {
    (b - a) % MinutesPerDay
  }

  /** Whether `time` lies in the window from `start` to `end`, both ends included;
      when `start` is later than `end` the window runs past midnight. */
  function IsTimeInRange(time: ClockTime, start: ClockTime, end: ClockTime): (r: bool)
    ensures Valid(time) && Valid(start) && Valid(end) ==>
      (r <==> DialDistance(ConvertTimeToMinutes(start), ConvertTimeToMinutes(time))
                <= DialDistance(ConvertTimeToMinutes(start), ConvertTimeToMinutes(end)))
  {
    var t, s, e := ConvertTimeToMinutes(time), ConvertTimeToMinutes(start), ConvertTimeToMinutes(end);
    WindowOrder(t, s, e);
    if s <= e then
      t >= s && t <= e
    else
      t >= s || t <= e
  }

  /** Minutes from `current` until `end`, taking `end` to be on the next day when it is earlier. */
  function GetRemainingDetoxTime(current: ClockTime, end: ClockTime): (r: int)
    ensures Valid(current) && Valid(end) ==>
      0 <= r < MinutesPerDay && r == DialDistance(ConvertTimeToMinutes(current), ConvertTimeToMinutes(end))
  {
    var c: int, e: int := ConvertTimeToMinutes(current), ConvertTimeToMinutes(end);
    RemainingOnDial(c, e);
    if e >= c then e - c else e + MinutesPerDay - c
  }

  /** `formatMinutesToHoursAndMinutes`: "Xh Ym", or "Ym" when there is no whole hour. */
  function FormatMinutesToHoursAndMinutes(totalMinutes: nat): (r: string)
    ensures ParseDuration(r) == Some(totalMinutes)
    ensures var parts := Split(r, ' ');
      |parts| == (if totalMinutes >= 60 then 2 else 1) &&
      UnitValue(parts[|parts| - 1], 'm') == Some(totalMinutes % 60) &&
      (totalMinutes >= 60 ==> UnitValue(parts[0], 'h') == Some(totalMinutes / 60))
    ensures var parts := Split(r, ' ');
      parts[|parts| - 1] == NatToString(totalMinutes % 60) + "m" &&
      (totalMinutes >= 60 ==> parts[0] == NatToString(totalMinutes / 60) + "h")
  {
    var hours, minutes := totalMinutes / 60, totalMinutes % 60;
    DurationRoundTrip(hours, minutes);
    assert hours > 0 <==> totalMinutes >= 60;
    var hourPiece, minutePiece := NatToString(hours) + "h", NatToString(minutes) + "m";
    if hours > 0 then
      assert Split(NatToString(hours) + "h " + NatToString(minutes) + "m", ' ') == [hourPiece, minutePiece];
      NatToString(hours) + "h " + NatToString(minutes) + "m"
    else
      assert Split(NatToString(minutes) + "m", ' ') == [minutePiece];
      NatToString(minutes) + "m"
  }

  /** The number in front of a unit letter, as in "30m" or "1h". */
  function UnitValue(piece: string, unit: char): Option<nat> {
    if piece != [] && piece[|piece| - 1] == unit then NumberOf(piece[..|piece| - 1]) else None
  }

  /** Reads "Xh Ym" or "Ym" back to a number of minutes. */
  function ParseDuration(s: string): Option<nat> {
    var parts := Split(s, ' ');
    if |parts| == 1 then
      UnitValue(parts[0], 'm')
    else if |parts| == 2 then
      match (UnitValue(parts[0], 'h'), UnitValue(parts[1], 'm'))
      case (Some(h), Some(m)) => Some(h * 60 + m)
      case _ => None
    else
      None
  }

  /** `getDayOfWeek`: JavaScript's `Date.getDay()` (Sunday 0 .. Saturday 6) to the
      ISO weekday (Monday 1 .. Sunday 7). */
  function GetDayOfWeek(jsDay: int): (r: int)
    requires 0 <= jsDay <= 6
    ensures 1 <= r <= 7 && r % 7 == jsDay
  {
    if jsDay == 0 then 7 else jsDay
  }

  /** `isDetoxDay`, with today's `Date.getDay()` passed in: whether the list of
      active ISO weekdays names today. */
  function IsDetoxDay(activeDays: seq<int>, jsDay: int): (r: bool)
    requires 0 <= jsDay <= 6
    ensures r <==> exists i :: 0 <= i < |activeDays| && 1 <= activeDays[i] <= 7 && activeDays[i] % 7 == jsDay
  {
    var today := GetDayOfWeek(jsDay);
    assert today in activeDays ==> exists i :: 0 <= i < |activeDays| && activeDays[i] == today;
    today in activeDays
  }

  // ---------------------------------------------------------------------------
  // 12-hour display, shared by `formatTime` and the time picker's `formatTimeDisplay`

  datatype Period = AM | PM

  /** A time as shown on a 12-hour clock face. */
  datatype TwelveHourTime = TwelveHourTime(hour: nat, minute: nat, period: Period)

  /** `hours % 12 || 12` and `hours >= 12 ? 'PM' : 'AM'`. */
  function ToTwelveHour(t: ClockTime): (d: TwelveHourTime)
    ensures 1 <= d.hour <= 12 && d.hour % 12 == t.hours % 12
    ensures d.minute == t.minutes
    ensures d.period == PM <==> t.hours >= 12
  {
    TwelveHourTime(if t.hours % 12 == 0 then 12 else t.hours % 12, t.minutes, if t.hours >= 12 then PM else AM)
  }

  /** Reads a 12-hour clock face back as a 24-hour time: 12 AM is 0, 12 PM is 12. */
  function FromTwelveHour(d: TwelveHourTime): ClockTime {
    ClockTime(d.hour % 12 + (if d.period == PM then 12 else 0), d.minute)
  }

  function PeriodText(p: Period): string {
    match p
    case AM => "AM"
    case PM => "PM"
  }

  /** The text before the first space: the "H:MM" part of a 12-hour text. */
  function ClockPart(s: string): string {
    Split(s, ' ')[0]
  }

  /** The hour field of a 12-hour text: what stands before the colon. */
  function HourField(s: string): string {
    Split(ClockPart(s), ':')[0]
  }

  /** The minute field of a 12-hour text: what stands between the colon and the space. */
  function MinuteField(s: string): string {
    var p := Split(ClockPart(s), ':');
    if |p| >= 2 then p[1] else ""
  }

  /** `${displayHours}:${displayMinutes} ${period}`: the hour as it is, the
      minutes padded to two digits. */
  function RenderTwelveHour(d: TwelveHourTime): (r: string)
    ensures HourField(r) == NatToString(d.hour)
    ensures AllDigits(MinuteField(r)) && DigitsValue(MinuteField(r)) == d.minute
    ensures d.minute < 100 ==> |MinuteField(r)| == 2
  {
    PaddedRoundTrip(d.minute);
    assert ' ' !in PeriodText(d.period);
    TwelveHourFields(NatToString(d.hour), PadTwo(NatToString(d.minute)), PeriodText(d.period));
    NatToString(d.hour) + ":" + PadTwo(NatToString(d.minute)) + " " + PeriodText(d.period)
  }

  /** Reads "H:MM AM" or "H:MM PM" back: exactly one space, and exactly one
      colon before it. */
  function ParseTwelveHour(s: string): Option<TwelveHourTime> {
    var parts := Split(s, ' ');
    if |parts| != 2 || |Split(parts[0], ':')| != 2 then None
    else
      var period := if parts[1] == "AM" then Some(AM) else if parts[1] == "PM" then Some(PM) else None;
      match (SplitPair(parts[0]), period)
      case (Some((h, m)), Some(p)) => Some(TwelveHourTime(h, m, p))
      case _ => None
  }

  /** `formatTime`: an "HH:MM" string in 12-hour form; a string whose numbers do not
      parse is returned unchanged. */
  function FormatTime(timeString: string): (r: string)
    ensures ParseClock(timeString).None? ==> r == timeString
    ensures ParseClock(timeString).Some? ==> ParseTwelveHour(r) == Some(ToTwelveHour(ParseClock(timeString).value))
    ensures ParseClock(timeString).Some? ==> |HourField(r)| == if ToTwelveHour(ParseClock(timeString).value).hour < 10 then 1 else 2
    ensures ParseClock(timeString).Some? ==> HourField(r) == NatToString(ToTwelveHour(ParseClock(timeString).value).hour)
    ensures ParseClock(timeString).Some? && ParseClock(timeString).value.minutes < 100 ==> |MinuteField(r)| == 2
  {
    match ParseClock(timeString)
    case None => timeString
    case Some(t) =>
      TwelveHourRoundText(ToTwelveHour(t));
      RenderTwelveHour(ToTwelveHour(t))
  }

  // ---------------------------------------------------------------------------
  // Lemmas

  /** The window test on minutes of the day, against order on the dial. */
  lemma WindowOrder(t: int, s: int, e: int)
    ensures 0 <= t < MinutesPerDay && 0 <= s < MinutesPerDay && 0 <= e < MinutesPerDay ==>
      ((if s <= e then t >= s && t <= e else t >= s || t <= e) <==> DialDistance(s, t) <= DialDistance(s, e))
  {
    DayMod(t - s);
    DayMod(e - s);
  }

  /** On valid times, minutes since midnight split back into the hours and minutes. */
  lemma MinutesSplitBack(t: ClockTime)
    requires Valid(t)
    ensures ConvertTimeToMinutes(t) / 60 == t.hours && ConvertTimeToMinutes(t) % 60 == t.minutes
  {
  }

  /** No time remains exactly when the current time is the end time. */
  lemma RemainingZeroAtEnd(current: ClockTime, end: ClockTime)
    requires Valid(current) && Valid(end)
    ensures GetRemainingDetoxTime(current, end) == 0 <==> current == end
  {
    MinutesSplitBack(current);
    MinutesSplitBack(end);
  }

  /** The remaining-time formula on minutes of the day is the forward distance on the dial. */
  lemma RemainingOnDial(c: int, e: int)
    ensures 0 <= c < MinutesPerDay && 0 <= e < MinutesPerDay ==>
      (if e >= c then e - c else e + MinutesPerDay - c) == DialDistance(c, e)
  {
    DayMod(e - c);
  }

  lemma DayMod(d: int)
    ensures -(MinutesPerDay as int) < d < MinutesPerDay ==>
      d % MinutesPerDay == if d >= 0 then d else d + MinutesPerDay
  {
  }

  /** Both ends of a window belong to it, and a window that crosses midnight holds midnight. */
  lemma WindowBounds(start: ClockTime, end: ClockTime)
    requires Valid(start) && Valid(end)
    ensures IsTimeInRange(start, start, end) && IsTimeInRange(end, start, end)
    ensures ConvertTimeToMinutes(start) > ConvertTimeToMinutes(end) ==>
      IsTimeInRange(ClockTime(0, 0), start, end) && IsTimeInRange(ClockTime(23, 59), start, end)
  {
  }

  /** The 22:00 to 06:00 window: 23:30 is inside with 390 minutes left, 12:00 is outside. */
  lemma OvernightWindowExample()
    ensures IsTimeInRange(ClockTime(23, 30), ClockTime(22, 0), ClockTime(6, 0))
    ensures !IsTimeInRange(ClockTime(12, 0), ClockTime(22, 0), ClockTime(6, 0))
    ensures GetRemainingDetoxTime(ClockTime(23, 30), ClockTime(6, 0)) == 390
  {
  }

  /** A number followed by its unit letter reads back as the number. */
  lemma UnitPiece(n: nat, unit: char)
    requires !IsDigit(unit) && unit != ' '
    ensures UnitValue(NatToString(n) + [unit], unit) == Some(n)
    ensures ' ' !in NatToString(n) + [unit]
  {
    var piece := NatToString(n) + [unit];
    assert piece[..|piece| - 1] == NatToString(n);
    NatToStringRoundTrip(n);
    DigitsAvoid(NatToString(n), ' ');
  }

  /** Hours and minutes rendered as "Xh Ym" or "Ym" read back to their total. */
  lemma DurationRoundTrip(hours: nat, minutes: nat)
    ensures hours > 0 ==> ParseDuration(NatToString(hours) + "h " + NatToString(minutes) + "m") == Some(hours * 60 + minutes)
    ensures hours == 0 ==> ParseDuration(NatToString(minutes) + "m") == Some(minutes)
    ensures Split(NatToString(hours) + "h " + NatToString(minutes) + "m", ' ') == [NatToString(hours) + "h", NatToString(minutes) + "m"]
    ensures Split(NatToString(minutes) + "m", ' ') == [NatToString(minutes) + "m"]
    ensures UnitValue(NatToString(hours) + "h", 'h') == Some(hours)
    ensures UnitValue(NatToString(minutes) + "m", 'm') == Some(minutes)
  {
    var hp, mp := NatToString(hours) + ['h'], NatToString(minutes) + ['m'];
    UnitPiece(hours, 'h');
    UnitPiece(minutes, 'm');
    assert NatToString(hours) + "h " + NatToString(minutes) + "m" == hp + [' '] + mp;
    SplitTwo(hp, ' ', mp);
    assert NatToString(minutes) + "m" == mp;
    assert NatToString(hours) + "h" == hp;
  }

  lemma SmallNumbers()
    ensures NatToString(0) == "0" && NatToString(1) == "1"
    ensures NatToString(45) == "45" && NatToString(30) == "30"
  {
    assert NatToString(4) == "4" && NatToString(5) == "5" && NatToString(3) == "3";
  }

  /** No whole hour: only minutes are shown, even for 0. */
  lemma DurationExamplesMinutes()
    ensures FormatMinutesToHoursAndMinutes(0) == "0m"
    ensures FormatMinutesToHoursAndMinutes(45) == "45m"
  {
    SmallNumbers();
  }

  /** Ninety minutes show as one hour and thirty minutes. */
  lemma DurationExampleHours()
    ensures FormatMinutesToHoursAndMinutes(90) == "1h 30m"
  {
    SmallNumbers();
    assert 90 / 60 == 1 && 90 % 60 == 30;
    assert NatToString(1) + "h " + NatToString(30) + "m" == "1h 30m";
  }

  /** The pieces of a rendered 12-hour text: split at the space into the clock
      part and the period, and the clock part split at the colon into hour and
      padded minutes. */
  lemma TwelveHourFields(h: string, m: string, period: string)
    requires AllDigits(h) && AllDigits(m) && ' ' !in period
    ensures Split(h + ":" + m + " " + period, ' ') == [h + ":" + m, period]
    ensures Split(h + ":" + m, ':') == [h, m]
  {
    DigitsAvoid(h, ':');
    DigitsAvoid(m, ':');
    DigitsAvoid(h, ' ');
    DigitsAvoid(m, ' ');
    var clock := h + ":" + m;
    assert clock == h + [':'] + m;
    SplitTwo(h, ':', m);
    assert ' ' !in clock;
    assert clock + " " + period == clock + [' '] + period;
    SplitTwo(clock, ' ', period);
  }

  /** Digits, a colon, digits, a space and a period parse as a 12-hour face. */
  lemma ParseTwelveHourText(h: string, m: string, p: Period)
    requires AllDigits(h) && AllDigits(m)
    ensures ParseTwelveHour(h + ":" + m + " " + PeriodText(p)) ==
      Some(TwelveHourTime(DigitsValue(h), DigitsValue(m), p))
  {
    var period := PeriodText(p);
    assert ' ' !in period;
    TwelveHourFields(h, m, period);
    assert SplitPair(h + ":" + m) == Some((DigitsValue(h), DigitsValue(m)));
  }

  /** A 12-hour face rendered as text reads back as the same face. */
  lemma TwelveHourRoundText(d: TwelveHourTime)
    ensures ParseTwelveHour(RenderTwelveHour(d)) == Some(d)
  {
    var h, m := NatToString(d.hour), PadTwo(NatToString(d.minute));
    NatToStringRoundTrip(d.hour);
    PaddedRoundTrip(d.minute);
    ParseTwelveHourText(h, m, d.period);
  }

  /** On a valid time the 12-hour face determines the 24-hour time. */
  lemma TwelveHourRoundTrip(t: ClockTime)
    requires Valid(t)
    ensures FromTwelveHour(ToTwelveHour(t)) == t
  {
  }

  /** `formatTime` loses nothing: its text determines the time it was given. */
  lemma FormatTimeDeterminesTime(timeString: string)
    requires ParseClock(timeString).Some? && Valid(ParseClock(timeString).value)
    ensures ParseTwelveHour(FormatTime(timeString)).Some?
    ensures FromTwelveHour(ParseTwelveHour(FormatTime(timeString)).value) == ParseClock(timeString).value
  {
    TwelveHourRoundTrip(ParseClock(timeString).value);
  }
}
