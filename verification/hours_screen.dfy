/** The hours screen: whether the gym is open now, when it next opens, and
    the 12-hour display of an `HH:MM` time. "Now" is given as the index of
    today's weekday (Sunday = 0, the order of `Date.prototype.getDay`) and the
    current time of day as zero-padded `HH:MM` text. */
module HoursScreen {
  import opened Collections
  import opened Decimal
  import opened GymTypes

  /** The week in Sunday-first order, as the screen spells the day names. */
  const DaysOfWeek: seq<string> :=
    ["Sunday", "Monday", "Tuesday", "Wednesday", "Thursday", "Friday", "Saturday"]

  type Weekday = i: int | 0 <= i < 7

  /** The test `h.day === day`. */
  function HasDay(day: string): GymHours -> bool
  {
    (h: GymHours) => h.day == day
  }

  /** `hours.find(h => h.day === day)`: the first entry for that day name. */
  function FindDay(hours: seq<GymHours>, day: string): (r: Option<GymHours>)
    ensures r.None? <==> forall i :: 0 <= i < |hours| ==> hours[i].day != day
    ensures r.Some? ==> r.value.day == day && r.value in hours
  {
    var i := FirstIndex(hours, HasDay(day), 0);
    if i < |hours| then Some(hours[i]) else None
  }

  /** `find` returns the earliest matching entry. */
  lemma {:induction false} FindDayIsFirst(hours: seq<GymHours>, day: string, i: nat)
    requires i < |hours| && hours[i].day == day
    ensures FindDay(hours, day).Some?
    ensures exists j :: 0 <= j <= i && hours[j] == FindDay(hours, day).value
  {
    var k := FirstIndex(hours, HasDay(day), 0);
    assert k <= i;
  }

  // ---------------------------------------------------------------------
  // Times of day as text
  // ---------------------------------------------------------------------

  /** JavaScript's `a < b` on two strings: lexicographic order of the
      characters, where a proper prefix comes first. (Dafny's own `<` on
      sequences means "proper prefix", so it is not used here.) The screen's
      `a >= b` is `!LexLess(a, b)` and its `a <= b` is `!LexLess(b, a)`. */
  function LexLess(a: string, b: string): bool
  {
    if |b| == 0 then false
    else if |a| == 0 then true
    else if a[0] != b[0] then a[0] < b[0]
    else LexLess(a[1..], b[1..])
  }

  /** Text of the shape `DD:DD`; what `split(':')` and `parseInt` need. */
  predicate IsClockText(t: string)
  {
    |t| == 5 && IsDigit(t[0]) && IsDigit(t[1]) && t[2] == ':' && IsDigit(t[3]) && IsDigit(t[4])
  }

  function HourOf(t: string): (h: nat)
    requires IsClockText(t)
    ensures h < 100
  {
    10 * DigitValue(t[0]) + DigitValue(t[1])
  }

  function MinuteOf(t: string): (m: nat)
    requires IsClockText(t)
    ensures m < 100
  {
    10 * DigitValue(t[3]) + DigitValue(t[4])
  }

  /** A zero-padded 24-hour time of day, `00:00` to `23:59` (the reduced-accuracy
      local time of ISO 8601:2004 section 4.2.2.3). */
  predicate IsTimeOfDay(t: string)
  {
    IsClockText(t) && HourOf(t) <= 23 && MinuteOf(t) <= 59
  }

  function MinutesSinceMidnight(t: string): (m: nat)
    requires IsTimeOfDay(t)
    ensures m < 24 * 60
  {
    60 * HourOf(t) + MinuteOf(t)
  }

  /** For zero-padded times, string order is time order: comparing the text,
      as the screen does, compares the instants. */
  lemma {:induction false} LexLessAgreesWithMinutes(a: string, b: string)
    requires IsTimeOfDay(a) && IsTimeOfDay(b)
    ensures LexLess(a, b) <==> MinutesSinceMidnight(a) < MinutesSinceMidnight(b)
  {
    var a0, a1, a3, a4 := DigitValue(a[0]), DigitValue(a[1]), DigitValue(a[3]), DigitValue(a[4]);
    var b0, b1, b3, b4 := DigitValue(b[0]), DigitValue(b[1]), DigitValue(b[3]), DigitValue(b[4]);
    var x1, y1 := a[1..], b[1..];
    var x2, y2 := x1[1..], y1[1..];
    var x3, y3 := x2[1..], y2[1..];
    var x4, y4 := x3[1..], y3[1..];
    assert LexLess(a, b) == if a[0] != b[0] then a0 < b0 else LexLess(x1, y1);
    assert LexLess(x1, y1) == if a[1] != b[1] then a1 < b1 else LexLess(x2, y2);
    assert LexLess(x2, y2) == LexLess(x3, y3);
    assert LexLess(x3, y3) == if a[3] != b[3] then a3 < b3 else LexLess(x4, y4);
    assert LexLess(x4, y4) == (a4 < b4);
  }

  /** `!LexLess(b, a)` is the screen's `a <= b`; on times it is `<=` on minutes. */
  lemma {:induction false} LexLeqAgreesWithMinutes(a: string, b: string)
    requires IsTimeOfDay(a) && IsTimeOfDay(b)
    ensures !LexLess(b, a) <==> MinutesSinceMidnight(a) <= MinutesSinceMidnight(b)
  {
    LexLessAgreesWithMinutes(b, a);
  }

  // ---------------------------------------------------------------------
  // Open now
  // ---------------------------------------------------------------------

  /** The gym is open now: today's entry exists, is not closed, and
      `open <= now <= close` as strings, inclusive at both ends. */
  function IsOpenNow(hours: seq<GymHours>, today: Weekday, now: string): (r: bool)
    ensures r ==> FindDay(hours, DaysOfWeek[today]).Some?
    ensures r ==> !FindDay(hours, DaysOfWeek[today]).value.isClosed
  {
    match FindDay(hours, DaysOfWeek[today])
    case None => false
    case Some(h) => !h.isClosed && !LexLess(now, h.open) && !LexLess(h.close, now)
  }

  /** For well-formed times, open-now is the inclusive window test on minutes. */
  lemma {:induction false} OpenNowByMinutes(hours: seq<GymHours>, today: Weekday, now: string)
    requires FindDay(hours, DaysOfWeek[today]).Some?
    requires var h := FindDay(hours, DaysOfWeek[today]).value;
      IsTimeOfDay(now) && IsTimeOfDay(h.open) && IsTimeOfDay(h.close)
    ensures var h := FindDay(hours, DaysOfWeek[today]).value;
      IsOpenNow(hours, today, now) <==>
        !h.isClosed &&
        MinutesSinceMidnight(h.open) <= MinutesSinceMidnight(now) <= MinutesSinceMidnight(h.close)
  {
    var h := FindDay(hours, DaysOfWeek[today]).value;
    LexLeqAgreesWithMinutes(h.open, now);
    LexLeqAgreesWithMinutes(now, h.close);
  }

  // ---------------------------------------------------------------------
  // Next opening
  // ---------------------------------------------------------------------

  /** What the screen shows when closed: a day label and an opening time. */
  datatype Opening = Opening(day: string, time: string)

  /** The name of the weekday `offset` days after today, wrapping the week. */
  function DayAfter(today: Weekday, offset: nat): string
  {
    DaysOfWeek[(today + offset) % 7]
  }

  /** The day has an entry and that entry is not closed. */
  predicate OpensOn(hours: seq<GymHours>, day: string)
  {
    FindDay(hours, day).Some? && !FindDay(hours, day).value.isClosed
  }

  /** The label for an opening `offset` days ahead. */
  function OffsetLabel(today: Weekday, offset: nat): string
  {
    if offset == 1 then "tomorrow" else DayAfter(today, offset)
  }

  /** The smallest offset in `from`..7 whose day opens, or 8 when none does. */
  function FirstOpenOffset(hours: seq<GymHours>, today: Weekday, from: nat): (k: nat)
    requires 1 <= from <= 8
    decreases 8 - from
    ensures from <= k <= 8
    ensures forall j :: from <= j < k ==> !OpensOn(hours, DayAfter(today, j))
    ensures k <= 7 ==> OpensOn(hours, DayAfter(today, k))
  {
    if from == 8 || OpensOn(hours, DayAfter(today, from)) then from
    else FirstOpenOffset(hours, today, from + 1)
  }

  /** The opening shown for a day `offset` days ahead that opens. */
  function OpeningAt(hours: seq<GymHours>, today: Weekday, offset: nat): Opening
    requires OpensOn(hours, DayAfter(today, offset))
  {
    Opening(OffsetLabel(today, offset), FindDay(hours, DayAfter(today, offset)).value.open)
  }

  /** The answer of the search over the next seven days. */
  function ScanWeek(hours: seq<GymHours>, today: Weekday): (r: Option<Opening>)
  {
    var k := FirstOpenOffset(hours, today, 1);
    if k <= 7 then Some(OpeningAt(hours, today, k)) else None
  }

  /** `getNextOpening`: nothing while open; today's opening time when today is
      open later on; otherwise the first open day among the next seven. */
  function NextOpening(hours: seq<GymHours>, today: Weekday, now: string): (r: Option<Opening>)
    ensures IsOpenNow(hours, today, now) ==> r.None?
  {
    if IsOpenNow(hours, today, now) then None
    else
      match FindDay(hours, DaysOfWeek[today])
      case Some(h) =>
        if !h.isClosed && LexLess(now, h.open) then Some(Opening("today", h.open))
        else ScanWeek(hours, today)
      case None => ScanWeek(hours, today)
  }

  /** Before today's opening time on an open day, the next opening is today's. */
  lemma {:induction false} NextOpeningToday(hours: seq<GymHours>, today: Weekday, now: string)
    requires OpensOn(hours, DaysOfWeek[today])
    requires LexLess(now, FindDay(hours, DaysOfWeek[today]).value.open)
    ensures NextOpening(hours, today, now) ==
              Some(Opening("today", FindDay(hours, DaysOfWeek[today]).value.open))
  {
    var h := FindDay(hours, DaysOfWeek[today]).value;
    assert !IsOpenNow(hours, today, now) by {
      if !LexLess(now, h.open) { assert false; }
    }
  }

  /** Otherwise, when closed now, the answer is the first day at offsets 1..7
      that opens, labelled "tomorrow" at offset 1 and by its name otherwise (so
      offset 7, today a week on, carries today's own name). */
  lemma {:induction false} NextOpeningIsFirstOpenDay(hours: seq<GymHours>, today: Weekday, now: string, k: nat)
    requires !IsOpenNow(hours, today, now)
    requires !(OpensOn(hours, DaysOfWeek[today]) &&
               LexLess(now, FindDay(hours, DaysOfWeek[today]).value.open))
    requires 1 <= k <= 7 && OpensOn(hours, DayAfter(today, k))
    requires forall j :: 1 <= j < k ==> !OpensOn(hours, DayAfter(today, j))
    ensures NextOpening(hours, today, now) == Some(OpeningAt(hours, today, k))
  {
    var k' := FirstOpenOffset(hours, today, 1);
    assert k' == k;
    assert NextOpening(hours, today, now) == ScanWeek(hours, today);
  }

  /** When closed now and not opening later today, there is no next opening
      exactly when none of the next seven days opens. */
  lemma {:induction false} NextOpeningNoneIffNoOpenDay(hours: seq<GymHours>, today: Weekday, now: string)
    requires !IsOpenNow(hours, today, now)
    requires !(OpensOn(hours, DaysOfWeek[today]) &&
               LexLess(now, FindDay(hours, DaysOfWeek[today]).value.open))
    ensures NextOpening(hours, today, now).None? <==>
              forall k :: 1 <= k <= 7 ==> !OpensOn(hours, DayAfter(today, k))
  {
    var k' := FirstOpenOffset(hours, today, 1);
    assert NextOpening(hours, today, now) == ScanWeek(hours, today);
    if k' <= 7 {
      assert OpensOn(hours, DayAfter(today, k'));
    }
  }

  /** A schedule in which no weekday opens never reports a next opening. */
  lemma {:induction false} NextOpeningNoneWhenAllClosed(hours: seq<GymHours>, today: Weekday, now: string)
    requires forall d :: 0 <= d < 7 ==> !OpensOn(hours, DaysOfWeek[d])
    ensures NextOpening(hours, today, now).None?
  {
    assert FirstOpenOffset(hours, today, 1) == 8;
    assert !OpensOn(hours, DaysOfWeek[today]);
  }

  /** `getNextOpening`'s loop: the early-returning `for` over offsets 1..7. */
  method GetNextOpening(hours: seq<GymHours>, today: Weekday, now: string) returns (r: Option<Opening>)
    ensures r == NextOpening(hours, today, now)
  {
    if IsOpenNow(hours, today, now) {
      return None;
    }
    var todayHours := FindDay(hours, DaysOfWeek[today]);
    if todayHours.Some? && !todayHours.value.isClosed && LexLess(now, todayHours.value.open) {
      return Some(Opening("today", todayHours.value.open));
    }
    assert NextOpening(hours, today, now) == ScanWeek(hours, today);
    for i := 1 to 8
      invariant FirstOpenOffset(hours, today, i) == FirstOpenOffset(hours, today, 1)
    {
      var nextDay := DaysOfWeek[(today + i) % 7];
      var nextDayHours := FindDay(hours, nextDay);
      if nextDayHours.Some? && !nextDayHours.value.isClosed {
        return Some(Opening(if i == 1 then "tomorrow" else nextDay, nextDayHours.value.open));
      }
    }
    return None;
  }

  // ---------------------------------------------------------------------
  // 12-hour display
  // ---------------------------------------------------------------------

  /** `hour % 12 || 12`. */
  function Hour12(h: nat): (r: nat)
    ensures 1 <= r <= 12 && r % 12 == h % 12
  {
    if h % 12 == 0 then 12 else h % 12
  }

  function Meridiem(h: nat): string
  {
    if h >= 12 then "PM" else "AM"
  }

  /** The shape of a 12-hour display built from an hour in 1..12, the
      minutes text and the suffix: the hour's digits, unpadded, followed by
      six fixed-width characters. */
  lemma {:induction false} DisplayShape(h12: nat, minutes: string, suffix: string)
    requires 1 <= h12 <= 12 && |minutes| == 2 && |suffix| == 2
    ensures var r := NatToString(h12) + ":" + minutes + " " + suffix;
      7 <= |r| <= 8 && AllDigits(r[..|r| - 6]) && r[0] != '0' &&
      ParseNat(r[..|r| - 6]) == h12 && r[|r| - 6..] == ":" + minutes + " " + suffix
  {
    var n := NatToString(h12);
    var r := n + ":" + minutes + " " + suffix;
    ParseNatToString(h12);
    assert r[..|r| - 6] == n;
    assert r[|r| - 6..] == ":" + minutes + " " + suffix;
  }

  /** `formatTime`: `H:MM AM` or `H:MM PM`. The hour is printed without padding
      and lies in 1..12, congruent to the 24-hour hour modulo 12; the minutes
      text is copied verbatim; the suffix is "PM" exactly for hours from 12 on. */
  function FormatTime(t: string): (r: string)
    requires IsClockText(t)
    ensures 7 <= |r| <= 8 && AllDigits(r[..|r| - 6]) && r[0] != '0'
    ensures var h12 := ParseNat(r[..|r| - 6]);
      1 <= h12 <= 12 && h12 % 12 == HourOf(t) % 12
    ensures r[|r| - 6..] == ":" + t[3..] + " " + Meridiem(HourOf(t))
  {
    var h12 := Hour12(HourOf(t));
    DisplayShape(h12, t[3..], Meridiem(HourOf(t)));
    NatToString(h12) + ":" + t[3..] + " " + Meridiem(HourOf(t))
  }

  /** Two-digit zero-padded text of an hour. */
  function TwoDigits(n: nat): (s: string)
    requires n < 100
  {
    [DigitChar(n / 10), DigitChar(n % 10)]
  }

  /** Reading a 12-hour display back into 24-hour `HH:MM` text. */
  function ParseClock12(r: string): string
    requires 6 <= |r| && AllDigits(r[..|r| - 6])
  {
    var h := ParseNat(r[..|r| - 6]) % 12 + (if r[|r| - 2..] == "PM" then 12 else 0);
    TwoDigits(h) + r[|r| - 6..|r| - 3]
  }

  /** The hour modulo 12 and the suffix together give the 24-hour hour back. */
  lemma {:induction false} HourFromMeridiem(h12: nat, h: nat)
    requires h <= 23 && h12 % 12 == h % 12
    ensures h12 % 12 + (if Meridiem(h) == "PM" then 12 else 0) == h
  {
  }

  /** The hour's two digits are the text's first two characters. */
  lemma {:induction false} HourDigits(t: string)
    requires IsClockText(t)
    ensures TwoDigits(HourOf(t)) == t[..2]
  {
    var h := HourOf(t);
    assert h / 10 == DigitValue(t[0]) && h % 10 == DigitValue(t[1]);
  }

  /** The 12-hour display loses nothing: every time of day can be read back
      from it, so distinct times display differently. */
  lemma {:induction false} FormatTimeRoundTrip(t: string)
    requires IsTimeOfDay(t)
    ensures ParseClock12(FormatTime(t)) == t
  {
    var r := FormatTime(t);
    var h := HourOf(t);
    var tail := r[|r| - 6..];
    assert tail == ":" + t[3..] + " " + Meridiem(h);
    assert r[|r| - 2..] == tail[4..] == Meridiem(h);
    assert r[|r| - 6..|r| - 3] == tail[..3] == ":" + t[3..];
    HourFromMeridiem(ParseNat(r[..|r| - 6]), h);
    assert ParseClock12(r) == TwoDigits(h) + (":" + t[3..]);
    HourDigits(t);
    assert t == t[..2] + (":" + t[3..]);
  }

  /** Midnight and noon: hour 0 shows as 12 AM and hour 12 as 12 PM. */
  lemma {:induction false} FormatTimeMidnightAndNoon()
    ensures FormatTime("00:30") == "12:30 AM"
    ensures FormatTime("12:00") == "12:00 PM"
  {
    assert HourOf("00:30") == 0 && "00:30"[3..] == "30";
    assert HourOf("12:00") == 12 && "12:00"[3..] == "00";
    assert NatToString(12) == "12";
  }

  /** Two of the class times shown on the home screen. */
  lemma {:induction false} FormatTimeMorningAndEvening()
    ensures FormatTime("08:00") == "8:00 AM"
    ensures FormatTime("18:00") == "6:00 PM"
  {
    assert HourOf("08:00") == 8 && "08:00"[3..] == "00";
    assert HourOf("18:00") == 18 && "18:00"[3..] == "00";
    assert NatToString(8) == "8" && NatToString(6) == "6";
  }
}
