/** The owner's weekly-hours editor: a local copy of the hours, edited one
    day at a time and handed back whole on save. */
module HoursManager {
  import opened GymTypes
  import HoursScreen

  /** Which time of a day entry an edit changes (`'open' | 'close'`). */
  datatype TimeField = OpenTime | CloseTime

  /** `localHours.map(h => h.day === day ? { ...h, isClosed } : h)`. */
  function SetClosed(hours: seq<GymHours>, day: string, isClosed: bool): (r: seq<GymHours>)
    ensures |r| == |hours|
    ensures forall i :: 0 <= i < |hours| && hours[i].day == day ==>
              r[i].isClosed == isClosed &&
              r[i].day == hours[i].day && r[i].open == hours[i].open && r[i].close == hours[i].close
    ensures forall i :: 0 <= i < |hours| && hours[i].day != day ==> r[i] == hours[i]
  {
    seq(|hours|, i requires 0 <= i < |hours| =>
      if hours[i].day == day then hours[i].(isClosed := isClosed) else hours[i])
  }

  /** `localHours.map(h => h.day === day ? { ...h, [field]: value } : h)`. */
  function SetTime(hours: seq<GymHours>, day: string, field: TimeField, value: string): (r: seq<GymHours>)
    ensures |r| == |hours|
    ensures forall i :: 0 <= i < |hours| && hours[i].day == day ==>
              r[i].day == hours[i].day && r[i].isClosed == hours[i].isClosed &&
              (field == OpenTime ==> r[i].open == value && r[i].close == hours[i].close) &&
              (field == CloseTime ==> r[i].close == value && r[i].open == hours[i].open)
    ensures forall i :: 0 <= i < |hours| && hours[i].day != day ==> r[i] == hours[i]
  {
    seq(|hours|, i requires 0 <= i < |hours| =>
      if hours[i].day != day then hours[i]
      else if field == OpenTime then hours[i].(open := value)
      else hours[i].(close := value))
  }

  /** A second toggle overrides the first: toggling a day closed and then back
      to its former flag gives back the list exactly, open and close times
      included. */
  lemma {:induction false} ToggleBackRestores(hours: seq<GymHours>, day: string, closed: bool, former: bool)
    requires forall i :: 0 <= i < |hours| && hours[i].day == day ==> hours[i].isClosed == former
    ensures SetClosed(SetClosed(hours, day, closed), day, former) == hours
  {
    var r := SetClosed(SetClosed(hours, day, closed), day, former);
    forall i | 0 <= i < |hours| ensures r[i] == hours[i] {
      if hours[i].day == day {
        assert r[i].isClosed == hours[i].isClosed;
      }
    }
  }

  /** Writing the same time twice is writing it once, and the other field of
      the entry is untouched by both. */
  lemma {:induction false} SetTimeIdempotent(hours: seq<GymHours>, day: string, field: TimeField, value: string)
    ensures SetTime(SetTime(hours, day, field, value), day, field, value) == SetTime(hours, day, field, value)
  {
  }

  /** After a day is toggled closed, the hours screen never finds it open,
      whatever its times say. */
  lemma {:induction false} ClosedDayDoesNotOpen(hours: seq<GymHours>, day: string)
    ensures !HoursScreen.OpensOn(SetClosed(hours, day, true), day)
  {
    var r := SetClosed(hours, day, true);
    var f := HoursScreen.FindDay(r, day);
    if f.Some? {
      var i :| 0 <= i < |r| && r[i] == f.value;
      assert r[i].day == day;
      assert hours[i].day == day;
    }
  }

  /** The component's state: `localHours`. */
  class HoursEditor {
    var localHours: seq<GymHours>

    /** `useState(hours)`: the editable list starts as the hours passed in. */
    constructor (hours: seq<GymHours>)
      ensures localHours == hours
    {
      localHours := hours;
    }

    /** `handleToggleDay`: set the closed flag of every entry with that name. */
    method ToggleDay(day: string, isClosed: bool)
      modifies this
      ensures localHours == SetClosed(old(localHours), day, isClosed)
    {
      localHours := SetClosed(localHours, day, isClosed);
    }

    /** `handleTimeChange`: set one time field of every entry with that name. */
    method TimeChange(day: string, field: TimeField, value: string)
      modifies this
      ensures localHours == SetTime(old(localHours), day, field, value)
    {
      localHours := SetTime(localHours, day, field, value);
    }

    /** `handleSave`: hand the current list to `onUpdateHours` as it is; no
        check that `open` comes before `close`. */
    method Save() returns (saved: seq<GymHours>)
      ensures saved == localHours
    {
      saved := localHours;
    }
  }
}
