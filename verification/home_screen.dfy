/** The member home screen. Its only logic is its own copy of `formatTime`,
    written out a second time in the source rather than shared with the
    hours screen. */
module HomeScreen {
  import opened Decimal
  import HoursScreen

  /** The home screen's `formatTime`. */
  function FormatTime(t: string): (r: string)
    requires HoursScreen.IsClockText(t)
    ensures 7 <= |r| <= 8 && AllDigits(r[..|r| - 6]) && r[0] != '0'
    ensures var h12 := ParseNat(r[..|r| - 6]);
      1 <= h12 <= 12 && h12 % 12 == HoursScreen.HourOf(t) % 12
    ensures r[|r| - 6..] == ":" + t[3..] + " " + (if HoursScreen.HourOf(t) >= 12 then "PM" else "AM")
  {
    var hour := HoursScreen.HourOf(t);
    var ampm := if hour >= 12 then "PM" else "AM";
    var hour12 := if hour % 12 == 0 then 12 else hour % 12;
    HoursScreen.DisplayShape(hour12, t[3..], ampm);
    NatToString(hour12) + ":" + t[3..] + " " + ampm
  }

  /** The copy agrees with the hours screen's on every input, so everything
      proved there (hour in 1..12, suffix, verbatim minutes, round trip)
      holds here too. */
  lemma {:induction false} SameAsHoursScreen(t: string)
    requires HoursScreen.IsClockText(t)
    ensures FormatTime(t) == HoursScreen.FormatTime(t)
  {
  }

  /** The suffix is "AM" exactly for hours before noon, and the displayed hour
      of a time of day lies in 1..12. */
  lemma {:induction false} SuffixAndHourRange(t: string)
    requires HoursScreen.IsClockText(t)
    ensures var r := FormatTime(t);
      7 <= |r| && (r[|r| - 2..] == "AM" <==> HoursScreen.HourOf(t) < 12) &&
      AllDigits(r[..|r| - 6]) && 1 <= ParseNat(r[..|r| - 6]) <= 12
  {
    var r := FormatTime(t);
    assert r == HoursScreen.FormatTime(t);
    assert r[|r| - 2..] == r[|r| - 6..][4..];
  }

  /** The example class times of the home screen. */
  lemma {:induction false} FormatTimeExamples()
    ensures FormatTime("08:00") == "8:00 AM"
    ensures FormatTime("18:00") == "6:00 PM"
  {
    HoursScreen.FormatTimeMorningAndEvening();
  }
}
