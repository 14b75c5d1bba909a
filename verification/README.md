# Gym app domain logic in Dafny

This project models the domain logic inside the screens of the ATHLION gym
app prototype (a React/TypeScript user interface) and proves properties of
it. Covered:

- **Opening hours.** The hours screen's open-now test, its next-opening search
  over the coming week and its 12-hour time display (`HoursScreen`, with the
  home screen's copy of the formatter in `HomeScreen`).
- **Weekly hours editor.** The owner's editor in `HoursManager`.
- **State store.** The application store (`App`): counting ids, deleting by
  id, replacing the hours, switching role, selecting a class, and choosing the
  screen to show.
- **Class schedule.** The day filter, grouping by date and day selector
  (`WorkoutsScreen`).
- **Owner and coach tools.** The class and coach forms (`ClassScheduler`,
  `CoachManager`), the coach's figures (`CoachDashboard`) and the swipe
  navigation of the shell (`MobileLayout`).
- **Membership arithmetic.** The days-left ceiling, progress percentage and
  upgrade tiers (`Subscription`). Three screens build on it:
  `ProfileScreen`, `MembershipScreen` and `MemberDashboard`.

Time is always an input:

- **Hours screen.** "Now" is today's weekday index (Sunday = 0) plus the time
  of day as zero-padded `HH:MM` text. This is the reduced-accuracy local time
  of ISO 8601:2004 section 4.2.2.3.
- **Membership and coach screens.** "Now" is a millisecond timestamp.
- **Dates.** A parameter `dateMs` stands for `new Date(s).getTime()` on a
  `YYYY-MM-DD` calendar date (ISO 8601:2004 section 4.1.2.2).
- **Day selector.** A parameter `isoDate` stands for the `toISOString` date
  of each day ahead.

How the model is built:

- **State.** Components that hold state are classes whose methods change
  their fields. Each method is specified by a pure function of the old state,
  and the properties are proved about those functions.
- **Loops.** The source's two loops (`getNextOpening` and `getDayOptions`)
  are methods with loop invariants. Each is proved equal to a recursive or
  per-index specification.

Comparisons and mappings:

- **String order.** JavaScript compares strings lexicographically. Dafny's `<`
  on sequences means "proper prefix", so the model has its own `LexLess`.
  `HoursScreen.LexLessAgreesWithMinutes` proves that on `HH:MM` text it
  orders times the way minutes since midnight do.
- **Group order.** `groupedByDate` is read back through `Object.entries`,
  which lists string keys in insertion order. `YYYY-MM-DD` keys are not
  integer-like, so the groups appear in the order the dates are first seen.
  `WorkoutsScreen.GroupByDate` models that directly as a left fold.
- **Tab bar.** The tab bar is the constant `MobileLayout.Tabs`. It takes no
  role, so it is the same for every role.

Two facts about the code shape the model:

- **Hours entries per weekday.** Nothing in the code enforces one hours entry
  per weekday. Lookups take the first entry with the day's name
  (`HoursScreen.FindDayIsFirst`), and edits change every entry with that name.
- **Workouts role.** `App` passes `userRole` to the workouts screen, but that
  screen never reads it. The screen model therefore carries only the classes.

## Model

| member | source | states |
|---|---|---|
| Decimal.ParseNatToString | Figma/src/App.tsx:121 | the decimal text that `toString` gives a count reads back as that count |
| GymTypes.ClassWithId | Figma/src/types/index.ts:1-13 | adding an id to a class without one keeps every other field; removing it again gives the original |
| GymTypes.CoachWithId | Figma/src/types/index.ts:15-21 | adding an id to a coach keeps name, email, specialty and avatar |
| GymTypes.CategoryNameInjective | Figma/src/types/index.ts:12 | the five category texts are pairwise different |
| HoursScreen.FindDay | Figma/src/components/HoursScreen.tsx:20 | `find` gives nothing exactly when no entry has the day's name; otherwise an entry of the list with that name |
| HoursScreen.FindDayIsFirst | Figma/src/components/HoursScreen.tsx:20 | the entry found comes no later than any entry with that name |
| HoursScreen.LexLessAgreesWithMinutes | Figma/src/components/HoursScreen.tsx:23-24 | on zero-padded `HH:MM` times, string `<` is `<` on minutes since midnight |
| HoursScreen.LexLeqAgreesWithMinutes | Figma/src/components/HoursScreen.tsx:23-24 | on zero-padded times, string `<=` is `<=` on minutes since midnight |
| HoursScreen.IsOpenNow | Figma/src/components/HoursScreen.tsx:22-24 | open now implies today's entry exists and is not closed; a missing or closed day is never open |
| HoursScreen.OpenNowByMinutes | Figma/src/components/HoursScreen.tsx:23-24 | for an entry with well-formed times, open now iff not closed and open <= now <= close in minutes, inclusive at both ends |
| HoursScreen.FirstOpenOffset | Figma/src/components/HoursScreen.tsx:48-58 | the smallest offset from the start whose weekday (mod 7) has an entry that is not closed, or 8 when there is none |
| HoursScreen.NextOpening | Figma/src/components/HoursScreen.tsx:36-62 | no next opening while the gym is open now |
| HoursScreen.NextOpeningToday | Figma/src/components/HoursScreen.tsx:43-45 | on an open day before its opening time the answer is ("today", open) |
| HoursScreen.NextOpeningIsFirstOpenDay | Figma/src/components/HoursScreen.tsx:48-58 | otherwise the answer is the first open day at offsets 1..7, labelled "tomorrow" at offset 1 and by its name otherwise (offset 7 is today's own name), with its open time |
| HoursScreen.NextOpeningNoneIffNoOpenDay | Figma/src/components/HoursScreen.tsx:48-61 | when closed and not opening later today, there is no answer exactly when none of the next seven days opens |
| HoursScreen.NextOpeningNoneWhenAllClosed | Figma/src/components/HoursScreen.tsx:53-61 | if every weekday is missing or closed there is no next opening |
| HoursScreen.GetNextOpening | Figma/src/components/HoursScreen.tsx:36-62 | the early-returning loop over offsets 1..7 computes `NextOpening` |
| HoursScreen.Hour12 | Figma/src/components/HoursScreen.tsx:31 | `hour % 12 \|\| 12` lies in 1..12 and is congruent to the hour modulo 12 |
| HoursScreen.DisplayShape | Figma/src/components/HoursScreen.tsx:31-32 | the template text of an hour in 1..12 is 7 or 8 characters, its hour digits have no leading zero and read back as the hour, and the rest is the colon, minutes, space and suffix |
| HoursScreen.FormatTime | Figma/src/components/HoursScreen.tsx:27-33 | unpadded hour in 1..12 congruent to the 24-hour hour mod 12, minutes copied verbatim, "PM" exactly from hour 12 on |
| HoursScreen.FormatTimeRoundTrip | Figma/src/components/HoursScreen.tsx:27-33 | every time of day can be read back from its 12-hour display, so the display loses nothing |
| HoursScreen.FormatTimeMidnightAndNoon | Figma/src/components/HoursScreen.tsx:27-33 | "00:30" shows as "12:30 AM" and "12:00" as "12:00 PM" |
| HoursScreen.FormatTimeMorningAndEvening | Figma/src/components/HoursScreen.tsx:27-33 | "08:00" shows as "8:00 AM" and "18:00" as "6:00 PM" |
| HomeScreen.FormatTime | Figma/src/components/HomeScreen.tsx:30-36 | the same display shape as the hours screen's: an unpadded hour in 1..12 congruent to the 24-hour hour mod 12, the minutes verbatim, "PM" exactly from hour 12 on |
| HomeScreen.SameAsHoursScreen | Figma/src/components/HomeScreen.tsx:30-36 | the home screen's copy of `formatTime` agrees with the hours screen's on every input |
| HomeScreen.SuffixAndHourRange | Figma/src/components/HomeScreen.tsx:33-34 | the suffix is "AM" iff the hour is below 12, and the displayed hour lies in 1..12 |
| HomeScreen.FormatTimeExamples | Figma/src/components/HomeScreen.tsx:30-36 | "08:00" shows as "8:00 AM" and "18:00" as "6:00 PM" |
| HoursManager.SetClosed | Figma/src/components/HoursManager.tsx:18-22 | same length and order; every entry with the name gets the flag and keeps its times; all other entries unchanged |
| HoursManager.SetTime | Figma/src/components/HoursManager.tsx:24-28 | same length and order; only the chosen field of matching entries changes; the other time and the flag stay |
| HoursManager.ToggleBackRestores | Figma/src/components/HoursManager.tsx:20 | toggling a day and then back to its former flag restores the list exactly, times included |
| HoursManager.SetTimeIdempotent | Figma/src/components/HoursManager.tsx:26 | writing the same time twice equals writing it once |
| HoursManager.ClosedDayDoesNotOpen | Figma/src/components/HoursManager.tsx:18-22 | after toggling a day closed, the hours screen never finds it open |
| HoursManager.HoursEditor.constructor | Figma/src/components/HoursManager.tsx:16 | the editable list starts as the hours passed in |
| HoursManager.HoursEditor.ToggleDay | Figma/src/components/HoursManager.tsx:18-22 | the new list is `SetClosed` of the old one |
| HoursManager.HoursEditor.TimeChange | Figma/src/components/HoursManager.tsx:24-28 | the new list is `SetTime` of the old one |
| HoursManager.HoursEditor.Save | Figma/src/components/HoursManager.tsx:30-32 | the current list is handed over as it is, with no check of open before close |
| WorkoutsScreen.FilterByDay | Figma/src/components/WorkoutsScreen.tsx:58-60 | "all" gives the list unchanged; a date gives only classes on that date |
| WorkoutsScreen.FilterByDayKeepsExactly | Figma/src/components/WorkoutsScreen.tsx:58-60 | a date keeps every occurrence of the classes on that date and no other class |
| WorkoutsScreen.FirstSeenDates | Figma/src/components/WorkoutsScreen.tsx:62-69 | the dates of a list, each once, and exactly the dates that occur |
| WorkoutsScreen.GroupByDate | Figma/src/components/WorkoutsScreen.tsx:62-69 | no more groups than classes, and no groups exactly when there are no classes |
| WorkoutsScreen.GroupByDateIsFilterPerDate | Figma/src/components/WorkoutsScreen.tsx:62-69 | the grouping has one group per date in first-seen order, holding the classes of that date in list order |
| WorkoutsScreen.GroupingPartitions | Figma/src/components/WorkoutsScreen.tsx:62-69 | keys are distinct, every class's date is a key, and a class is in a group exactly when its date is the key, as often as in the list |
| WorkoutsScreen.SingleDateOneGroup | Figma/src/components/WorkoutsScreen.tsx:62-69 | classes all on one date group into nothing when there are none, else one group holding the whole list in order |
| WorkoutsScreen.OneDateAtMostOneGroup | Figma/src/components/WorkoutsScreen.tsx:58-69 | with a date selected there is no group or one group holding all classes of that date |
| WorkoutsScreen.KeysInFirstSeenOrder | Figma/src/components/WorkoutsScreen.tsx:62-69 | a later date met first gives the first group: keys are not sorted |
| WorkoutsScreen.DayOptionAt | Figma/src/components/WorkoutsScreen.tsx:44-49 | id and date are that day's ISO date; labels Today, Tomorrow/Tom, then the weekday name and its first three letters |
| WorkoutsScreen.GetDayOptions | Figma/src/components/WorkoutsScreen.tsx:33-53 | eight options: "all" first, then the seven days from today |
| WorkoutsScreen.DaySelection.constructor | Figma/src/components/WorkoutsScreen.tsx:12 | the selected day starts as "all" |
| WorkoutsScreen.DaySelection.SelectDay | Figma/src/components/WorkoutsScreen.tsx:114 | a day button sets the selection to its id |
| WorkoutsScreen.DaySelection.Shown | Figma/src/components/WorkoutsScreen.tsx:58-69 | with "all" selected, the grouping of every class; with a date selected, at most one group, keyed by that date |
| WorkoutsScreen.CategoryColor | Figma/src/components/WorkoutsScreen.tsx:21-30 | a name outside the five categories gets "#1E4B82"; every colour is one of three |
| WorkoutsScreen.CategoryColors | Figma/src/components/WorkoutsScreen.tsx:21-30 | each of the five categories gets its listed colour |
| App.NextId | Figma/src/App.tsx:121 | the id is decimal digits reading back as count + 1 |
| App.AppendClass | Figma/src/App.tsx:120-122 | exactly one class appended, earlier ones unchanged, with id count + 1 and otherwise the submitted fields |
| App.AppendCoach | Figma/src/App.tsx:146-148 | exactly one coach appended by the same counting rule |
| App.RemoveClass | Figma/src/App.tsx:129-131 | no class with the id is left; an id not present leaves the list unchanged |
| App.RemoveClassKeepsOthers | Figma/src/App.tsx:131 | every occurrence of a class with another id is kept |
| App.RemoveClassKeepsOrder | Figma/src/App.tsx:131 | deleting distributes over concatenation, so survivors keep their order |
| App.IdsCollideAfterDelete | Figma/src/App.tsx:120-131 | with ids "1".."4", deleting "2" then adding yields two classes with id "4" |
| App.AddAfterDeleteReusesId | Figma/src/App.tsx:120-131 | four classes, add ("5"), delete "5", add again: the new class is "5" once more |
| App.ScreenFor | Figma/src/App.tsx:190-228 | the detail screen shows exactly while a class is selected |
| App.HomeDispatchesOnRole | Figma/src/App.tsx:194-212 | without a selection, home shows the member, owner or coach home, each exactly for its role; the coach home is coach "1" |
| App.OtherTabsIgnoreRole | Figma/src/App.tsx:213-221 | the workouts, progress and hours tabs show the same screen for every role |
| App.ProfileGetsMemberOnlyAsMember | Figma/src/App.tsx:222-228 | the profile receives the role, and the member exactly in the member role |
| App.InitialClassesHaveCountingIds | Figma/src/App.tsx:45-98 | the initial classes carry ids "1" to "4", the counting ids |
| App.InitialHoursOnMonday | Figma/src/App.tsx:100-108 | with the initial hours, Monday 21:59 is open; 22:01 is closed, next opening tomorrow 06:00 |
| App.AppState.CurrentScreen | Figma/src/App.tsx:190-228 | the detail screen exactly while a class is selected; otherwise the member home on the home tab in the member role, and the workouts and hours tabs show the stored classes and hours |
| App.AppState.constructor | Figma/src/App.tsx:19-118 | member role, home tab, no selection, and the mock data |
| App.AppState.AddClass | Figma/src/App.tsx:120-127 | the classes become `AppendClass` of the old ones; nothing else changes |
| App.AppState.DeleteClass | Figma/src/App.tsx:129-136 | the classes become `RemoveClass` of the old ones; nothing else changes |
| App.AppState.UpdateHours | Figma/src/App.tsx:138-144 | the hours are replaced whole; nothing else changes |
| App.AppState.AddCoach | Figma/src/App.tsx:146-153 | the coaches become `AppendCoach` of the old ones; nothing else changes |
| App.AppState.RoleChange | Figma/src/App.tsx:155-160 | sets the role, resets to home, clears the selection; the lists are untouched |
| App.AppState.ClassSelect | Figma/src/App.tsx:162-164 | selects the class, so the detail screen shows whatever the tab |
| App.AppState.BackFromWorkout | Figma/src/App.tsx:166-168 | clears the selection, so the detail screen is gone |
| App.AppState.SetActiveTab | Figma/src/App.tsx:187 | sets the tab only |
| MobileLayout.TabIndex | Figma/src/components/MobileLayout.tsx:59 | every tab is found in the bar at its own position |
| MobileLayout.SwipeTarget | Figma/src/components/MobileLayout.tsx:50-69 | a tab change iff not scrolling, \|dx\| > 50 strictly, and the neighbour exists; dx > 0 goes back one position, dx < 0 forward one |
| MobileLayout.SwipeBackReturns | Figma/src/components/MobileLayout.tsx:61-67 | a swipe the opposite way undoes a swipe that moved |
| MobileLayout.RoleLabel | Figma/src/components/MobileLayout.tsx:71-80 | "Management Portal" exactly for the owner, "Coach Dashboard" exactly for a coach, the motto exactly for a member |
| MobileLayout.RoleLabelIdentifiesRole | Figma/src/components/MobileLayout.tsx:71-80 | the three role labels are pairwise different |
| MobileLayout.SwipeGesture.constructor | Figma/src/components/MobileLayout.tsx:30-32 | start at 0, 0 and not scrolling |
| MobileLayout.SwipeGesture.TouchStart | Figma/src/components/MobileLayout.tsx:34-38 | records the start and clears the scrolling flag |
| MobileLayout.SwipeGesture.TouchMove | Figma/src/components/MobileLayout.tsx:40-48 | raises the flag on \|dy\| > \|dx\| and \|dy\| > 10; never lowers it; nothing else changes |
| MobileLayout.SwipeGesture.TouchEnd | Figma/src/components/MobileLayout.tsx:50-69 | the change is `SwipeTarget`: none while scrolling, otherwise at most one position |
| ClassScheduler.ApplyEdit | Figma/src/components/ClassScheduler.tsx:67-169 | an input's handler sets its own field and keeps the rest of the form |
| ClassScheduler.EditsCommuteOrOverride | Figma/src/components/ClassScheduler.tsx:67-169 | edits of different inputs commute; a second edit of the same input overrides the first |
| ClassScheduler.FindCoach | Figma/src/components/ClassScheduler.tsx:31 | nothing exactly when no coach has the id; otherwise a coach of the list with that id |
| ClassScheduler.FindCoachIsFirst | Figma/src/components/ClassScheduler.tsx:31 | the first coach with the id is the one found |
| ClassScheduler.Submission | Figma/src/components/ClassScheduler.tsx:28-38 | nothing iff no coach matches; otherwise the form's fields unchecked, the found coach's name, no one enrolled, and no id |
| ClassScheduler.SubmittedCoachNameBelongsToCoach | Figma/src/components/ClassScheduler.tsx:31-36 | the submitted coach name is that of a coach with the chosen id |
| ClassScheduler.ClassSchedulerForm.constructor | Figma/src/components/ClassScheduler.tsx:17-26 | empty texts, 60 minutes, 20 places, strength |
| ClassScheduler.ClassSchedulerForm.Edit | Figma/src/components/ClassScheduler.tsx:67-169 | the form becomes `ApplyEdit` of the old one |
| ClassScheduler.ClassSchedulerForm.Submit | Figma/src/components/ClassScheduler.tsx:28-51 | hands over `Submission`; on no match the form is unchanged, otherwise it is back to the defaults |
| CoachManager.ApplyCoachEdit | Figma/src/components/CoachManager.tsx:43-67 | editing one field leaves the other two unchanged |
| CoachManager.CoachSubmission | Figma/src/components/CoachManager.tsx:22-24 | name, email and specialty handed over verbatim, no avatar |
| CoachManager.TypedFieldsAreSubmitted | Figma/src/components/CoachManager.tsx:22-67 | typing the three fields and submitting hands over exactly what was typed |
| CoachManager.CoachManagerForm.constructor | Figma/src/components/CoachManager.tsx:16-20 | all three fields start empty |
| CoachManager.CoachManagerForm.Edit | Figma/src/components/CoachManager.tsx:43-67 | the form becomes `ApplyCoachEdit` of the old one |
| CoachManager.CoachManagerForm.Submit | Figma/src/components/CoachManager.tsx:22-26 | hands over `CoachSubmission` and empties all three fields |
| CoachManager.Split | Figma/src/components/CoachManager.tsx:90 | at least one part, none containing a space |
| CoachManager.JoinSplit | Figma/src/components/CoachManager.tsx:90 | joining the parts with spaces gives the name back |
| CoachManager.Initials | Figma/src/components/CoachManager.tsx:90 | no more initials than parts |
| CoachManager.InitialsAreWordStarts | Figma/src/components/CoachManager.tsx:90 | the initials are exactly the non-space characters at the start or after a space, in order |
| CoachManager.TwoWordInitials | Figma/src/components/CoachManager.tsx:90 | two space-separated words give their two first letters |
| CoachManager.InitialsExample | Figma/src/components/CoachManager.tsx:90 | "Sarah Johnson" gives "SJ" |
| CoachManager.DoubleSpaceGivesNoInitial | Figma/src/components/CoachManager.tsx:90 | "A  B" splits into three parts but gives two initials |
| CoachDashboard.MyClasses | Figma/src/components/CoachDashboard.tsx:13 | only this coach's classes; none for a coach without classes |
| CoachDashboard.MyClassesExactly | Figma/src/components/CoachDashboard.tsx:13 | every occurrence of this coach's classes is kept, nothing else |
| CoachDashboard.UpcomingCount | Figma/src/components/CoachDashboard.tsx:14-16 | at most the number of the coach's classes; all of them exactly when every one is dated now or later; none exactly when every one is dated before now |
| CoachDashboard.UpcomingCountSnoc | Figma/src/components/CoachDashboard.tsx:14-16 | one more class adds one to the count exactly when it is dated now or later, so with 0 for no classes the count is fixed for every list |
| CoachDashboard.UpcomingCountIsNumberUpcoming | Figma/src/components/CoachDashboard.tsx:14-16 | the count equals the number of positions whose class is dated now or later |
| CoachDashboard.TotalEnrolled | Figma/src/components/CoachDashboard.tsx:17 | with no negative enrolment the total is not negative; with every class empty it is 0 |
| CoachDashboard.TotalEnrolledConcat | Figma/src/components/CoachDashboard.tsx:17 | the student sum can be taken piecewise |
| CoachDashboard.StudentsSplitByCoach | Figma/src/components/CoachDashboard.tsx:13-17 | this coach's students plus the other coaches' are all students: none counted twice or missed |
| CoachDashboard.Stats | Figma/src/components/CoachDashboard.tsx:13-17 | upcoming <= the coach's classes <= all classes |
| CoachDashboard.NoClassesAllZero | Figma/src/components/CoachDashboard.tsx:13-17 | a coach with no classes sees 0 upcoming, 0 total, 0 students |
| Subscription.CeilDays | Figma/src/components/ProfileScreen.tsx:111 | d * 86400000 >= diff > (d - 1) * 86400000, the ceiling; it may be negative |
| Subscription.CeilDaysUnique | Figma/src/components/ProfileScreen.tsx:111 | only one whole number satisfies that, so it is the ceiling |
| Subscription.CeilDaysMonotone | Figma/src/components/ProfileScreen.tsx:111 | more time left never gives fewer days |
| Subscription.ProgressWidth | Figma/src/components/ProfileScreen.tsx:222 | within [0, 100]; 0 from 0 days down, 100 from 30 days up, proportional between |
| Subscription.ProgressWidthMonotone | Figma/src/components/ProfileScreen.tsx:222 | the bar grows with the days left |
| Subscription.TierRank | Figma/src/components/ProfileScreen.tsx:411-413 | the rank is the tier's position in basic < premium < vip |
| Subscription.UpgradeTiers | Figma/src/components/ProfileScreen.tsx:409-415 | only tiers strictly above the current one |
| Subscription.UpgradeTiersValues | Figma/src/components/ProfileScreen.tsx:409-415 | basic is offered premium and vip in that order, premium only vip, vip nothing |
| Subscription.UpgradeTiersExactly | Figma/src/components/ProfileScreen.tsx:409-415 | a tier is offered iff strictly above, none twice; vip gets none |
| ProfileScreen.DaysRemaining | Figma/src/components/ProfileScreen.tsx:106-112 | 0 without a member, else the ceiling of the days to the end |
| ProfileScreen.IsExpiringSoon | Figma/src/components/ProfileScreen.tsx:115 | flagged for every day count at or below 0 and for 1 to 7 days; never from 8 days up |
| ProfileScreen.ExpiringSoonWithinAWeek | Figma/src/components/ProfileScreen.tsx:115 | expiring soon iff the end is at most seven days of milliseconds away, already past included |
| ProfileScreen.AccountItems | Figma/src/components/ProfileScreen.tsx:24-31 | "Membership" is listed iff role member with a member present; the two fixed entries follow |
| ProfileScreen.MembershipEntryOnlyForMembers | Figma/src/components/ProfileScreen.tsx:28 | as the store wires the profile, the entry is there exactly in the member role |
| ProfileScreen.DaysText | Figma/src/components/ProfileScreen.tsx:208 | "N days remaining" with N reading back as the days when positive, else "Membership expired" |
| ProfileScreen.DaysTextTellsExpiry | Figma/src/components/ProfileScreen.tsx:208 | the text is "Membership expired" exactly when no days are left |
| ProfileScreen.Benefits | Figma/src/components/ProfileScreen.tsx:74-99 | four perks plus two for each step up the tiers |
| ProfileScreen.BenefitCounts | Figma/src/components/ProfileScreen.tsx:74-99 | 4, 6 and 8 perks, more for a higher tier |
| ProfileScreen.UpgradeSectionShown | Figma/src/components/ProfileScreen.tsx:388-415 | the section is drawn exactly when some tier is above |
| ProfileScreen.ShowProgressBar | Figma/src/components/ProfileScreen.tsx:218-222 | the bar is drawn exactly when its width is above 0 |
| ProfileScreen.RenewalOfferShown | Figma/src/components/ProfileScreen.tsx:230 | the offer shows exactly with 1 to 7 days left, and then the warning and the bar show too |
| ProfileScreen.ProfileView.constructor | Figma/src/components/ProfileScreen.tsx:13 | the details start hidden |
| ProfileScreen.ProfileView.ShowsDetails | Figma/src/components/ProfileScreen.tsx:116-120 | the details show exactly when the flag is up and a member is present (every tier has an entry in the tier table, so `currentTier` is then present too) |
| ProfileScreen.ProfileView.OpenMembership | Figma/src/components/ProfileScreen.tsx:28 | the menu entry raises the flag |
| ProfileScreen.ProfileView.CloseMembership | Figma/src/components/ProfileScreen.tsx:127 | "Back to Profile" lowers it; no details show for any member |
| MembershipScreen.DaysRemaining | Figma/src/components/MembershipScreen.tsx:10-12 | the ceiling of the days to the end |
| MembershipScreen.IsExpiringSoon | Figma/src/components/MembershipScreen.tsx:13 | the same flag as the profile screen's for every day count |
| MembershipScreen.AgreesWithProfile | Figma/src/components/MembershipScreen.tsx:10-13 | same days and same expiring flag as the profile screen for the same member and moment |
| MembershipScreen.RenewButton | Figma/src/components/MembershipScreen.tsx:196-200 | shown iff active; "RENEW WITH 20% OFF" iff expiring soon, else "RENEW MEMBERSHIP" |
| MembershipScreen.ClassLimitText | Figma/src/components/MembershipScreen.tsx:252 | "2 per week limit" iff basic, else "Unlimited" |
| MembershipScreen.UpgradeSectionShown | Figma/src/components/MembershipScreen.tsx:300-312 | the section is drawn exactly when some tier is above, and for the same tiers as on the profile screen |
| MemberDashboard.DaysRemaining | Figma/src/components/MemberDashboard.tsx:33-36 | the same ceiling of the days to the end |
| MemberDashboard.SubscriptionProgress | Figma/src/components/MemberDashboard.tsx:38 | within [0, 100], full exactly from 30 days up |
| MemberDashboard.EnrolledClasses | Figma/src/components/MemberDashboard.tsx:41 | the first min(3, n) classes, in order |
| MemberDashboard.ExpiringBannerShown | Figma/src/components/MemberDashboard.tsx:100 | the banner shows exactly for an active membership that the profile flags as expiring, except at exactly 7 days |
| MemberDashboard.BannerAgainstProfileWarning | Figma/src/components/MemberDashboard.tsx:100 | the banner implies the profile's warning; at exactly 7 days the profile warns and the banner does not |
| MemberDashboard.StatusColor | Figma/src/components/MemberDashboard.tsx:15-22 | the badge of hue green for active, red for expired, gray for cancelled |
| MemberDashboard.SubscriptionColor | Figma/src/components/MemberDashboard.tsx:24-31 | the badge of hue blue for basic, purple for premium, amber for vip |
| MemberDashboard.ColorsTellValuesApart | Figma/src/components/MemberDashboard.tsx:15-31 | both colour maps are total and give each value its own colour |

## Left out

- Toast notifications after each store update: a foreign library call.
- Reading the clock and the locale:
  - `new Date()`, `toLocaleDateString`, `toTimeString` and `toISOString` become the inputs described above.
  - Local versus UTC dates in the day selector's ISO dates are not modelled.
- All markup, styling, icons, animations and the collapsible open/closed flags (`showBenefits`, `showActivity`, `showUpgrade`, `showContact`, `showSchedule`); `ui/collapsible.tsx` is a wrapper over a widget library.
- The progress, workout detail and owner dashboard screens and the class list: hard-coded figures, a timer-driven join flow, counts and rendering only. The delete the class list triggers is `App.AppState.DeleteClass`.
- The membership screen's day text, progress bar and renewal offer repeat the profile screen's expressions (MembershipScreen.tsx:152-174); `ProfileScreen.DaysText`, `Subscription.ProgressWidth` and `ProfileScreen.RenewalOfferShown` stand for both.
- HoursScreen.FormatTime: requires `DD:DD` text. Other texts are not modelled. In the source, "8:30" prints "8:30 AM" and "08:00:00" prints "8:00 AM". An empty text, which a cleared time input gives (HoursManager.tsx:63,75), prints "12:undefined AM", because `NaN % 12 || 12` is 12.
- HomeScreen.FormatTime: the same restriction and the same unmodelled outputs as the hours screen's formatter (HomeScreen.tsx:30-36).
- CoachManager.Initials and HoursScreen.LexLess: Dafny strings are sequences of Unicode scalar values, but JavaScript indexes and compares UTF-16 code units. For a name starting with a character outside the Basic Multilingual Plane, `n[0]` takes half a surrogate pair. Text comparison differs in the same way. Neither case is modelled.
- WorkoutsScreen.GroupByDate: assumes date keys that are neither integer-like nor `Object.prototype` names. The source groups on a plain object, so integer-like keys are listed first in ascending order. A key such as "constructor" finds the inherited function and `acc[date].push` throws (WorkoutsScreen.tsx:64-67).
- CoachDashboard.UpcomingCount: `dateMs` gives a whole number for every text; an unparsable date (an invalid `Date`, whose comparisons are all false) is not modelled.
- Subscription.CeilDays: exact division of whole milliseconds. The source divides in floating point first. For differences below 2^53 ms, a non-whole quotient is at least 1/86400000 away from a whole number, so the ceiling is the same.
- Subscription.ProgressWidth: exact `real` arithmetic instead of IEEE floating point.
- ClassScheduler.ApplyEdit: `parseInt` of the duration and capacity inputs is taken to give a whole number. Its NaN case, and the browser's `required`, `min` and `step` checks, are not modelled.
- Object keys looked up through the prototype in `getCategoryColor` (a category text such as "constructor") are not modelled. Every text outside the five categories gets the fallback colour.
- JavaScript numbers are modelled as unbounded integers (`duration`, `capacity`, `enrolled`, ids). No overflow occurs at the sizes the screens handle.
