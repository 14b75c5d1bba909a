/** The class schedule screen: a day selector ("all" or one calendar date),
    the classes of the selected day, grouped by date in the order the dates
    are first met, and the colour of a category. */
module WorkoutsScreen {
  import opened Collections
  import opened GymTypes
  import HoursScreen

  /** The selector value that means "every day". */
  const AllDays: string := "all"

  /** The filter's test `classItem.date === day`, exact string equality on
      `YYYY-MM-DD` dates (ISO 8601:2004 section 4.1.2.2). */
  function OnDate(day: string): GymClass -> bool
  {
    (c: GymClass) => c.date == day
  }

  /** `filteredClasses`: the whole list for "all", otherwise exactly the classes
      on that date, in their original order (see `Collections.FilterConcat`). */
  function FilterByDay(classes: seq<GymClass>, selectedDay: string): (r: seq<GymClass>)
    ensures selectedDay == AllDays ==> r == classes
    ensures selectedDay != AllDays ==> forall i :: 0 <= i < |r| ==> r[i].date == selectedDay
  {
    if selectedDay == AllDays then classes else Filter(classes, OnDate(selectedDay))
  }

  /** A specific day keeps every occurrence of the classes on that date and
      nothing else. */
  lemma {:induction false} FilterByDayKeepsExactly(classes: seq<GymClass>, selectedDay: string, c: GymClass)
    requires selectedDay != AllDays
    ensures multiset(FilterByDay(classes, selectedDay))[c] ==
              if c.date == selectedDay then multiset(classes)[c] else 0
  {
    FilterCount(classes, OnDate(selectedDay), c);
  }

  // ---------------------------------------------------------------------
  // Grouping by date
  // ---------------------------------------------------------------------

  /** One entry of `groupedByDate`: a date key and its classes. */
  datatype DateGroup = DateGroup(date: string, classes: seq<GymClass>)

  /** The test that a group is keyed `date`. */
  function KeyedBy(date: string): DateGroup -> bool
  {
    (g: DateGroup) => g.date == date
  }

  /** One step of the `reduce`: push onto the class's date group, creating it
      at the end (insertion order) when the date is new. */
  function AddToGroups(groups: seq<DateGroup>, c: GymClass): (r: seq<DateGroup>)
    ensures |groups| <= |r| <= |groups| + 1 && |r| > 0
  {
    var i := FirstIndex(groups, KeyedBy(c.date), 0);
    if i < |groups| then groups[i := DateGroup(c.date, groups[i].classes + [c])]
    else groups + [DateGroup(c.date, [c])]
  }

  /** `groupedByDate`, read as `Object.entries` reads it: the left fold of
      `AddToGroups` over the list. */
  function GroupByDate(classes: seq<GymClass>): (g: seq<DateGroup>)
    decreases |classes|
    ensures |g| <= |classes|
    ensures |g| == 0 <==> |classes| == 0
  {
    if |classes| == 0 then []
    else AddToGroups(GroupByDate(classes[..|classes| - 1]), classes[|classes| - 1])
  }

  /** The dates of a list, each kept at its first occurrence: an independent
      account of which keys the grouping has and in which order. */
  function FirstSeenDates(classes: seq<GymClass>): (ds: seq<string>)
    decreases |classes|
    ensures forall i, j :: 0 <= i < j < |ds| ==> ds[i] != ds[j]
    ensures forall d :: d in ds <==> exists i :: 0 <= i < |classes| && classes[i].date == d
  {
    if |classes| == 0 then []
    else
      var prefix := classes[..|classes| - 1];
      var last := classes[|classes| - 1];
      var ds := FirstSeenDates(prefix);
      assert forall i :: 0 <= i < |prefix| ==> prefix[i] == classes[i];
      if last.date in ds then ds else ds + [last.date]
  }

  /** `g` holds, for each key of `ks` in order, the classes of `cs` on that date. */
  ghost predicate GroupsAreFilters(g: seq<DateGroup>, ks: seq<string>, cs: seq<GymClass>)
  {
    |g| == |ks| && forall i :: 0 <= i < |g| ==> g[i] == DateGroup(ks[i], Filter(cs, OnDate(ks[i])))
  }

  /** The fold step for a class whose date already has a group. */
  lemma {:induction false} PushOntoExistingGroup(g: seq<DateGroup>, ks: seq<string>, cs: seq<GymClass>, x: GymClass, k: nat)
    requires GroupsAreFilters(g, ks, cs)
    requires forall i, j :: 0 <= i < j < |ks| ==> ks[i] != ks[j]
    requires k < |g| && ks[k] == x.date
    ensures GroupsAreFilters(g[k := DateGroup(x.date, g[k].classes + [x])], ks, cs + [x])
  {
    var g' := g[k := DateGroup(x.date, g[k].classes + [x])];
    forall i | 0 <= i < |ks|
      ensures g'[i] == DateGroup(ks[i], Filter(cs + [x], OnDate(ks[i])))
    {
      FilterSnoc(cs, x, OnDate(ks[i]));
      if i != k {
        assert ks[i] != x.date;
      }
    }
  }

  /** The fold step for a class whose date is new: a group at the end. */
  lemma {:induction false} StartNewGroup(g: seq<DateGroup>, ks: seq<string>, cs: seq<GymClass>, x: GymClass)
    requires GroupsAreFilters(g, ks, cs)
    requires forall i :: 0 <= i < |cs| ==> cs[i].date != x.date
    requires x.date !in ks
    ensures GroupsAreFilters(g + [DateGroup(x.date, [x])], ks + [x.date], cs + [x])
  {
    var g', ks' := g + [DateGroup(x.date, [x])], ks + [x.date];
    forall i | 0 <= i < |ks'|
      ensures g'[i] == DateGroup(ks'[i], Filter(cs + [x], OnDate(ks'[i])))
    {
      FilterSnoc(cs, x, OnDate(ks'[i]));
      if i == |ks| {
        assert Filter(cs, OnDate(x.date)) == [];
      } else {
        assert ks'[i] == ks[i] != x.date;
      }
    }
  }

  /** The grouping is exactly: one group per date in first-seen order, holding
      the classes of that date in their original order. */
  lemma {:induction false} GroupByDateIsFilterPerDate(classes: seq<GymClass>)
    ensures GroupsAreFilters(GroupByDate(classes), FirstSeenDates(classes), classes)
    decreases |classes|
  {
    if |classes| > 0 {
      var prefix := classes[..|classes| - 1];
      var x := classes[|classes| - 1];
      assert classes == prefix + [x];
      GroupByDateIsFilterPerDate(prefix);
      var g, ks := GroupByDate(prefix), FirstSeenDates(prefix);
      var k := FirstIndex(g, KeyedBy(x.date), 0);
      if k < |g| {
        assert ks[k] == x.date;
        PushOntoExistingGroup(g, ks, prefix, x, k);
      } else {
        assert x.date !in ks;
        StartNewGroup(g, ks, prefix, x);
      }
    }
  }

  /** Grouping partitions the list: the keys are distinct, every date of the
      list is a key, and a class is in a group exactly when its date is that
      group's key, as often as it occurs in the list. */
  lemma {:induction false} GroupingPartitions(classes: seq<GymClass>, c: GymClass)
    ensures var g := GroupByDate(classes);
      (forall i, j :: 0 <= i < j < |g| ==> g[i].date != g[j].date) &&
      (c in classes ==> exists i :: 0 <= i < |g| && g[i].date == c.date) &&
      (forall i :: 0 <= i < |g| ==>
         multiset(g[i].classes)[c] == if c.date == g[i].date then multiset(classes)[c] else 0)
  {
    GroupByDateIsFilterPerDate(classes);
    var g, ks := GroupByDate(classes), FirstSeenDates(classes);
    assert forall i :: 0 <= i < |g| ==> g[i].date == ks[i];
    forall i | 0 <= i < |g|
      ensures multiset(g[i].classes)[c] == if c.date == g[i].date then multiset(classes)[c] else 0
    {
      FilterCount(classes, OnDate(ks[i]), c);
    }
    if c in classes {
      var j :| 0 <= j < |classes| && classes[j] == c;
      assert c.date in ks;
      var i :| 0 <= i < |ks| && ks[i] == c.date;
      assert g[i].date == c.date;
    }
  }

  /** A list on a single date has that date as its only key. */
  lemma {:induction false} FirstSeenSingleDate(classes: seq<GymClass>, day: string)
    requires forall i :: 0 <= i < |classes| ==> classes[i].date == day
    ensures FirstSeenDates(classes) == if |classes| == 0 then [] else [day]
    decreases |classes|
  {
    if |classes| > 0 {
      FirstSeenSingleDate(classes[..|classes| - 1], day);
    }
  }

  /** A list on a single date groups into nothing when empty and otherwise
      into one group holding the whole list. */
  lemma {:induction false} SingleDateOneGroup(f: seq<GymClass>, day: string)
    requires forall i :: 0 <= i < |f| ==> f[i].date == day
    ensures GroupByDate(f) == if |f| == 0 then [] else [DateGroup(day, f)]
  {
    if |f| > 0 {
      var g := GroupByDate(f);
      GroupByDateIsFilterPerDate(f);
      FirstSeenSingleDate(f, day);
      assert |g| == 1 && g[0] == DateGroup(day, Filter(f, OnDate(day)));
      assert forall i :: 0 <= i < |f| ==> OnDate(day)(f[i]);
      assert Filter(f, OnDate(day)) == f;
      assert g == [g[0]];
    }
  }

  /** With one date selected, the screen shows no group when nothing is on
      that date, and otherwise a single group keyed by it holding every class
      of that date in list order. */
  lemma {:induction false} OneDateAtMostOneGroup(classes: seq<GymClass>, selectedDay: string)
    requires selectedDay != AllDays
    ensures var f := FilterByDay(classes, selectedDay);
      GroupByDate(f) == if |f| == 0 then [] else [DateGroup(selectedDay, f)]
  {
    SingleDateOneGroup(FilterByDay(classes, selectedDay), selectedDay);
  }

  /** Keys follow first appearance, not the calendar: a later date met first
      gives the first group. */
  lemma {:induction false} KeysInFirstSeenOrder(a: GymClass, b: GymClass)
    requires a.date == "2025-10-29" && b.date == "2025-10-27"
    ensures |GroupByDate([a, b])| == 2
    ensures GroupByDate([a, b])[0].date == "2025-10-29"
    ensures GroupByDate([a, b])[1].date == "2025-10-27"
  {
    assert [a, b][..1] == [a];
    assert [a][..0] == [];
    assert a.date[9] != b.date[9];
    assert GroupByDate([a]) == [DateGroup(a.date, [a])];
  }

  // ---------------------------------------------------------------------
  // Day selector
  // ---------------------------------------------------------------------

  /** One button of the day selector; `date` is absent for "all". */
  datatype DayOption = DayOption(id: string, name: string, shortName: string, date: Option<string>)

  const AllOption: DayOption := DayOption(AllDays, "All", "All", None)

  /** The button for `offset` days after today. The day name follows the week
      from today's weekday; `isoDate(offset)` stands for the `YYYY-MM-DD` text
      that `toISOString` gives for that day. */
  function DayOptionAt(today: HoursScreen.Weekday, offset: nat, isoDate: nat -> string): (o: DayOption)
    ensures o.id == isoDate(offset) && o.date == Some(isoDate(offset))
    ensures offset == 0 ==> o.name == "Today" && o.shortName == "Today"
    ensures offset == 1 ==> o.name == "Tomorrow" && o.shortName == "Tom"
    ensures offset >= 2 ==> o.name == HoursScreen.DayAfter(today, offset) &&
                            |o.shortName| == 3 && o.shortName == o.name[..3]
  {
    var dayName := HoursScreen.DaysOfWeek[(today + offset) % 7];
    DayOption(isoDate(offset),
              if offset == 0 then "Today" else if offset == 1 then "Tomorrow" else dayName,
              if offset == 0 then "Today" else if offset == 1 then "Tom" else dayName[..3],
              Some(isoDate(offset)))
  }

  /** `getDayOptions`: "all" first, then the seven days from today on. */
  method GetDayOptions(today: HoursScreen.Weekday, isoDate: nat -> string) returns (options: seq<DayOption>)
    ensures |options| == 8 && options[0] == AllOption
    ensures forall i :: 0 <= i < 7 ==> options[i + 1] == DayOptionAt(today, i, isoDate)
  {
    options := [AllOption];
    for i := 0 to 7
      invariant |options| == i + 1 && options[0] == AllOption
      invariant forall j :: 0 <= j < i ==> options[j + 1] == DayOptionAt(today, j, isoDate)
    {
      var dayName := HoursScreen.DaysOfWeek[(today + i) % 7];
      var dateStr := isoDate(i);
      options := options + [DayOption(
        dateStr,
        if i == 0 then "Today" else if i == 1 then "Tomorrow" else dayName,
        if i == 0 then "Today" else if i == 1 then "Tom" else dayName[..3],
        Some(dateStr))];
    }
  }

  /** The component's `selectedDay` state. */
  class DaySelection {
    var selectedDay: string

    /** `useState('all')`. */
    constructor ()
      ensures selectedDay == AllDays
    {
      selectedDay := AllDays;
    }

    /** A day button's `setSelectedDay(day.id)`. */
    method SelectDay(id: string)
      modifies this
      ensures selectedDay == id
    {
      selectedDay := id;
    }

    /** What the screen lists for the current selection. */
    function Shown(classes: seq<GymClass>): (g: seq<DateGroup>)
      reads this
      ensures selectedDay == AllDays ==> g == GroupByDate(classes)
      ensures selectedDay != AllDays ==> |g| <= 1 && forall i :: 0 <= i < |g| ==> g[i].date == selectedDay
    {
      var g := GroupByDate(FilterByDay(classes, selectedDay));
      assert selectedDay != AllDays ==> |g| <= 1 by {
        if selectedDay != AllDays {
          OneDateAtMostOneGroup(classes, selectedDay);
        }
      }
      g
    }
  }

  // ---------------------------------------------------------------------
  // Category colour
  // ---------------------------------------------------------------------

  const DefaultColor: string := "#1E4B82"

  /** `getCategoryColor`: a lookup by category name, falling back to the
      default colour for any name outside the five categories. */
  function CategoryColor(category: string): (color: string)
    ensures category !in {"yoga", "strength", "hiit", "pilates", "cardio"} ==> color == DefaultColor
    ensures color in {"#1E4B82", "#C9A678", "#9A7B4F"}
  {
    var colors := map["yoga" := "#1E4B82", "strength" := "#C9A678", "hiit" := "#9A7B4F",
                      "pilates" := "#1E4B82", "cardio" := "#C9A678"];
    if category in colors then colors[category] else DefaultColor
  }

  /** Every category of a class has its own entry: yoga and pilates in blue,
      strength and cardio in gold, HIIT in bronze. */
  lemma {:induction false} CategoryColors()
    ensures CategoryColor(CategoryName(Yoga)) == "#1E4B82"
    ensures CategoryColor(CategoryName(Pilates)) == "#1E4B82"
    ensures CategoryColor(CategoryName(Strength)) == "#C9A678"
    ensures CategoryColor(CategoryName(Cardio)) == "#C9A678"
    ensures CategoryColor(CategoryName(Hiit)) == "#9A7B4F"
  {
  }
}
