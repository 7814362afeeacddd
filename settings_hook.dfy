/** The settings editor of `useDetoxSettings`: the `DetoxSettings` record, its
    shallow merge, and the toggles and setters built on it. */
module SettingsHook {
  import opened Optional
  import Text
  import TimeUtils

  /** `DetoxSettings`: times stay "HH:MM" strings, as the store keeps them. */
  datatype DetoxSettings = DetoxSettings(
    enabled: bool,
    startTime: string,
    endTime: string,
    activeDays: seq<int>)

  /** `DEFAULT_DETOX_SETTINGS`: on, 06:00 to 09:00, every day of the week. */
  const DefaultDetoxSettings := DetoxSettings(true, "06:00", "09:00", [1, 2, 3, 4, 5, 6, 7])

  /** `Partial<DetoxSettings>`. */
  datatype SettingsPatch = SettingsPatch(
    enabled: Option<bool>,
    startTime: Option<string>,
    endTime: Option<string>,
    activeDays: Option<seq<int>>)

  /** `{ ...settings, ...newSettings }`: a supplied field takes the patch's
      value, a field left out keeps the settings'. */
  function Merge(s: DetoxSettings, p: SettingsPatch): (r: DetoxSettings)
    ensures r.enabled == if p.enabled.Some? then p.enabled.value else s.enabled
    ensures r.startTime == if p.startTime.Some? then p.startTime.value else s.startTime
    ensures r.endTime == if p.endTime.Some? then p.endTime.value else s.endTime
    ensures r.activeDays == if p.activeDays.Some? then p.activeDays.value else s.activeDays
  {
    DetoxSettings(
      p.enabled.GetOr(s.enabled),
      p.startTime.GetOr(s.startTime),
      p.endTime.GetOr(s.endTime),
      p.activeDays.GetOr(s.activeDays))
  }

  /** A patch that supplies every field of `s`. */
  function Whole(s: DetoxSettings): SettingsPatch {
    SettingsPatch(Some(s.enabled), Some(s.startTime), Some(s.endTime), Some(s.activeDays))
  }

  /** `activeDays.indexOf(day)`: the first position holding `day`, or -1. */
  function IndexOf(days: seq<int>, day: int): (r: int)
    ensures -1 <= r < |days|
    ensures r == -1 <==> day !in days
    ensures 0 <= r ==> days[r] == day && day !in days[..r]
    decreases |days|
  {
    if days == [] then -1
    else if days[0] == day then 0
    else
      var k := IndexOf(days[1..], day);
      assert days == [days[0]] + days[1..];
      assert 0 <= k ==> days[..k + 1] == [days[0]] + days[1..][..k];
      if k == -1 then -1 else k + 1
  }

  /** The list `toggleActiveDay` stores: `day` pushed at the end when absent,
      its first occurrence spliced out when present. */
  function ToggleDay(days: seq<int>, day: int): (r: seq<int>)
    ensures day !in days ==> r == days + [day]
    ensures multiset(r) == if day in days then multiset(days) - multiset{day} else multiset(days) + multiset{day}
  {
    var index := IndexOf(days, day);
    if index == -1 then
      days + [day]
    else
      assert days == days[..index] + [day] + days[index + 1..];
      days[..index] + days[index + 1..]
  }

  predicate NoDuplicates(days: seq<int>) {
    forall i, j :: 0 <= i < j < |days| ==> days[i] != days[j]
  }

  /** The state of one `useDetoxSettings` hook: the record in memory, the loading
      flag, and the records written to the `detox_settings` key, oldest first. */
  class DetoxSettingsHook {
    var settings: DetoxSettings
    var loading: bool
    var written: seq<DetoxSettings>

    constructor()
      ensures settings == DefaultDetoxSettings && loading && written == []
    {
      settings := DefaultDetoxSettings;
      loading := true;
      written := [];
    }

    /** `loadSettings`: adopt the stored record when there is one, then stop loading. */
    method LoadSettings(stored: Option<DetoxSettings>)
      modifies this
      ensures settings == if stored.Some? then stored.value else old(settings)
      ensures !loading && written == old(written)
    {
      if stored.Some? {
        settings := stored.value;
      }
      loading := false;
    }

    /** `updateSettings`: commit the merged record, then write it to the store.
        The store reports no failure, so the result is always `true`. */
    method UpdateSettings(newSettings: SettingsPatch) returns (ok: bool)
      modifies this
      ensures settings == Merge(old(settings), newSettings)
      ensures written == old(written) + [settings]
      ensures loading == old(loading)
      ensures ok
    {
      var updatedSettings := Merge(settings, newSettings);
      settings := updatedSettings;
      written := written + [updatedSettings];
      ok := true;
    }

    /** `toggleEnabled`: only `enabled` changes, to its negation. */
    method ToggleEnabled() returns (ok: bool)
      modifies this
      ensures settings == old(settings).(enabled := !old(settings).enabled)
      ensures written == old(written) + [settings] && loading == old(loading) && ok
    {
      ok := UpdateSettings(SettingsPatch(Some(!settings.enabled), None, None, None));
    }

    /** `updateStartTime`: only the start time changes. */
    method UpdateStartTime(startTime: string) returns (ok: bool)
      modifies this
      ensures settings == old(settings).(startTime := startTime)
      ensures written == old(written) + [settings] && loading == old(loading) && ok
    {
      ok := UpdateSettings(SettingsPatch(None, Some(startTime), None, None));
    }

    /** `updateEndTime`: only the end time changes. */
    method UpdateEndTime(endTime: string) returns (ok: bool)
      modifies this
      ensures settings == old(settings).(endTime := endTime)
      ensures written == old(written) + [settings] && loading == old(loading) && ok
    {
      ok := UpdateSettings(SettingsPatch(None, None, Some(endTime), None));
    }

    /** `toggleActiveDay`: copy the list, push or splice `day`, store the copy. */
    method ToggleActiveDay(day: int) returns (ok: bool)
      modifies this
      ensures settings == old(settings).(activeDays := ToggleDay(old(settings).activeDays, day))
      ensures written == old(written) + [settings] && loading == old(loading) && ok
    {
      var activeDays := settings.activeDays;
      var index := IndexOf(activeDays, day);
      if index == -1 {
        activeDays := activeDays + [day];
      } else {
        activeDays := activeDays[..index] + activeDays[index + 1..];
      }
      ok := UpdateSettings(SettingsPatch(None, None, None, Some(activeDays)));
    }

    /** `resetSettings`: back to the default record. */
    method ResetSettings() returns (ok: bool)
      modifies this
      ensures settings == DefaultDetoxSettings
      ensures written == old(written) + [settings] && loading == old(loading) && ok
    {
      ok := UpdateSettings(Whole(DefaultDetoxSettings));
    }
  }

  // ---------------------------------------------------------------------------
  // Lemmas

  /** Only the supplied fields change; merging the settings' own fields changes nothing. */
  lemma MergeOnlySupplied(s: DetoxSettings, p: SettingsPatch)
    ensures p.enabled.None? ==> Merge(s, p).enabled == s.enabled
    ensures p.startTime.None? ==> Merge(s, p).startTime == s.startTime
    ensures p.endTime.None? ==> Merge(s, p).endTime == s.endTime
    ensures p.activeDays.None? ==> Merge(s, p).activeDays == s.activeDays
    ensures Merge(s, Whole(s)) == s
  {
  }

  /** Toggling a present day takes out exactly its first occurrence and keeps the
      order of everything else. */
  lemma ToggleRemovesFirst(days: seq<int>, day: int)
    requires day in days
    ensures exists i :: (0 <= i < |days| && days[i] == day && day !in days[..i] &&
      ToggleDay(days, day) == days[..i] + days[i + 1..])
  {
    var i := IndexOf(days, day);
    var r := ToggleDay(days, day);
    assert r == days[..i] + days[i + 1..];
    assert 0 <= i < |days| && days[i] == day && day !in days[..i] && r == days[..i] + days[i + 1..];
  }

  /** On a list without duplicates a toggle flips the membership of `day` and no other. */
  lemma ToggleFlipsMembership(days: seq<int>, day: int, x: int)
    requires NoDuplicates(days)
    ensures x in ToggleDay(days, day) <==> (if x == day then day !in days else x in days)
  {
    var r := ToggleDay(days, day);
    if day in days {
      var i := IndexOf(days, day);
      assert r == days[..i] + days[i + 1..];
      assert days == days[..i] + [day] + days[i + 1..];
      if x == day {
        assert forall k :: i < k < |days| ==> days[k] != day;
        assert day !in days[i + 1..];
      }
    }
  }

  /** A toggle keeps a duplicate-free list duplicate-free. */
  lemma ToggleKeepsNoDuplicates(days: seq<int>, day: int)
    requires NoDuplicates(days)
    ensures NoDuplicates(ToggleDay(days, day))
  {
    var r := ToggleDay(days, day);
    if day in days {
      var i := IndexOf(days, day);
      assert r == days[..i] + days[i + 1..];
      forall a, b | 0 <= a < b < |r| ensures r[a] != r[b] {
        var a', b' := if a < i then a else a + 1, if b < i then b else b + 1;
        assert r[a] == days[a'] && r[b] == days[b'] && a' < b';
      }
    }
  }

  /** Toggling the same day twice: an absent day leaves the list as it was; on a
      duplicate-free list the set of days is always restored. */
  lemma ToggleTwice(days: seq<int>, day: int)
    ensures day !in days ==> ToggleDay(ToggleDay(days, day), day) == days
    ensures NoDuplicates(days) ==> (set x | x in ToggleDay(ToggleDay(days, day), day)) == (set x | x in days)
  {
    var once := ToggleDay(days, day);
    if day !in days {
      assert once == days + [day];
      assert IndexOf(once, day) == |days| by {
        assert once[|days|] == day && once[..|days|] == days;
      }
    }
    if NoDuplicates(days) {
      ToggleKeepsNoDuplicates(days, day);
      forall x ensures x in ToggleDay(once, day) <==> x in days {
        ToggleFlipsMembership(days, day, x);
        ToggleFlipsMembership(once, day, x);
      }
    }
  }

  /** After toggling, today is a detox day exactly when it was not before if
      `day` is today's ISO weekday, and as before otherwise. */
  lemma ToggleChangesDetoxDay(days: seq<int>, day: int, jsDay: int)
    requires NoDuplicates(days) && 0 <= jsDay <= 6
    ensures TimeUtils.IsDetoxDay(ToggleDay(days, day), jsDay) ==
      (TimeUtils.IsDetoxDay(days, jsDay) != (day == TimeUtils.GetDayOfWeek(jsDay)))
  {
    var today := TimeUtils.GetDayOfWeek(jsDay);
    ToggleFlipsMembership(days, day, today);
    DetoxDayIsMembership(days, jsDay);
    DetoxDayIsMembership(ToggleDay(days, day), jsDay);
  }

  /** `isDetoxDay` is membership of today's ISO weekday. */
  lemma DetoxDayIsMembership(days: seq<int>, jsDay: int)
    requires 0 <= jsDay <= 6
    ensures TimeUtils.IsDetoxDay(days, jsDay) <==> TimeUtils.GetDayOfWeek(jsDay) in days
  {
    var today := TimeUtils.GetDayOfWeek(jsDay);
    if TimeUtils.IsDetoxDay(days, jsDay) {
      var i :| 0 <= i < |days| && 1 <= days[i] <= 7 && days[i] % 7 == jsDay;
      assert days[i] == today;
    }
  }

  /** The default window is the well-formed 06:00 to 09:00. */
  lemma DefaultWindow()
    ensures TimeUtils.ParseClock(DefaultDetoxSettings.startTime) == Some(TimeUtils.ClockTime(6, 0))
    ensures TimeUtils.ParseClock(DefaultDetoxSettings.endTime) == Some(TimeUtils.ClockTime(9, 0))
  {
    assert Text.NatToString(0) == "0" && Text.NatToString(6) == "6" && Text.NatToString(9) == "9";
    assert Text.PaddedPair(6, 0) == "06:00";
    assert Text.PaddedPair(9, 0) == "09:00";
    Text.PaddedPairRoundTrip(6, 0);
    Text.PaddedPairRoundTrip(9, 0);
  }

  /** The default day list has no duplicates and makes every day a detox day. */
  lemma DefaultDays()
    ensures NoDuplicates(DefaultDetoxSettings.activeDays)
    ensures forall jsDay :: 0 <= jsDay <= 6 ==> TimeUtils.IsDetoxDay(DefaultDetoxSettings.activeDays, jsDay)
  {
    forall jsDay | 0 <= jsDay <= 6 ensures TimeUtils.IsDetoxDay(DefaultDetoxSettings.activeDays, jsDay) {
      DetoxDayIsMembership(DefaultDetoxSettings.activeDays, jsDay);
    }
  }
}
